/**
  The twelve transitions on the Vec-backed state: latched gate loops, guard order and in-place
  updates. Each is proved to answer and to act exactly as the abstract state machine does on the
  state it represents, so nothing it does depends on the order of its vectors.
*/
module Transitions {
  import opened Types
  import opened Collections
  import opened Kernel
  import S = Spec

  /** The abstract reply: an accepted result together with the state it left. */
  ghost function Reply(r: Result<Action, KernelError>, after: S.State): S.StepResult {
    match r
    case Ok(action) => S.Accepted(after, action)
    case Err(e) => S.Refused(e)
  }

  // ---- Scans ----

  ghost predicate AllOf<T>(items: seq<T>, ok: T -> bool) {
    forall x | x in items :: ok(x)
  }

  lemma AllOfNext<T>(items: seq<T>, i: nat, ok: T -> bool)
    requires i < |items|
    ensures AllOf(items[..i + 1], ok) <==> AllOf(items[..i], ok) && ok(items[i])
  {
    assert items[..i + 1] == items[..i] + [items[i]];
  }

  /** The scan over egress channels: allowed, or inspected where an inspection counts. */
  method ChannelsPass(bg: Background, level: ConfLevel, egress: seq<EgressKind>, inspectable: bool) returns (ok: bool)
    ensures ok <==> S.FlowOk(bg, level, AsSet(egress), inspectable)
  {
    ok := true;
    var e := 0;
    while e < |egress|
      invariant 0 <= e <= |egress|
      invariant ok <==> S.FlowOk(bg, level, AsSet(egress[..e]), inspectable)
    {
      var eg := egress[e];
      assert egress[..e + 1] == egress[..e] + [eg];
      if !(bg.FlowAllows(level, eg) || (bg.FlowInspects(level, eg) && inspectable)) {
        ok := false;
        assert eg in AsSet(egress[..e + 1]);
      }
      e := e + 1;
    }
    assert egress[..e] == egress;
  }

  // ---- What one worst-case level is asked ----

  ghost function LevelExits(bg: Background, egress: set<EgressKind>, inspectable: bool): ConfLevel -> bool {
    (l: ConfLevel) => S.FlowOk(bg, l, egress, inspectable)
  }

  ghost function LevelSuffices(p: PolicyK, inspectable: bool): IntegLevel -> bool {
    (l: IntegLevel) => S.IntegOk(l, p, inspectable)
  }

  lemma ExitsIs(items: seq<ConfLevel>, bg: Background, egress: set<EgressKind>, inspectable: bool)
    ensures AllOf(items, LevelExits(bg, egress, inspectable))
        <==> forall l | l in AsSet(items) :: S.FlowOk(bg, l, egress, inspectable)
  {
    assert forall l: ConfLevel :: LevelExits(bg, egress, inspectable)(l) == S.FlowOk(bg, l, egress, inspectable);
  }

  lemma SufficesIs(items: seq<IntegLevel>, p: PolicyK, inspectable: bool)
    ensures AllOf(items, LevelSuffices(p, inspectable))
        <==> forall l | l in AsSet(items) :: S.IntegOk(l, p, inspectable)
  {
    assert forall l: IntegLevel :: LevelSuffices(p, inspectable)(l) == S.IntegOk(l, p, inspectable);
  }

  // ---- What one pending record is asked ----

  ghost function LevelLeaves(bg: Background, l: ConfLevel, strict: bool): PendingK -> bool {
    (j: PendingK) => S.FlowOk(bg, l, j.egress, !strict && j.Vouched())
  }

  ghost function LevelCleared(l: ConfLevel): PendingK -> bool {
    (j: PendingK) => l.Le(j.policy.confClearance)
  }

  ghost function LevelTrusted(l: IntegLevel, strict: bool): PendingK -> bool {
    (j: PendingK) => S.IntegOk(l, j.policy, !strict && j.Vouched())
  }

  lemma LeavesIs(entries: seq<(InvocationId, PendingV)>, bg: Background, a: AgentId, l: ConfLevel, strict: bool)
    requires UniqueKeys(entries)
    ensures AllOwned(entries, a, LevelLeaves(bg, l, strict)) <==> S.ConfHold(PendingsOf(AsMap(entries)), bg, a, l, strict)
  {
    AllOwnedIs(entries, a, LevelLeaves(bg, l, strict));
    var m := PendingsOf(AsMap(entries));
    assert forall i | i in m && S.Owned(m, i, a) ::
        LevelLeaves(bg, l, strict)(m[i]) == S.FlowOk(bg, l, m[i].egress, !strict && m[i].Vouched());
  }

  lemma ClearedIs(entries: seq<(InvocationId, PendingV)>, a: AgentId, l: ConfLevel)
    requires UniqueKeys(entries)
    ensures AllOwned(entries, a, LevelCleared(l)) <==> S.ClearHold(PendingsOf(AsMap(entries)), a, l)
  {
    AllOwnedIs(entries, a, LevelCleared(l));
    var m := PendingsOf(AsMap(entries));
    assert forall i | i in m && S.Owned(m, i, a) :: LevelCleared(l)(m[i]) == l.Le(m[i].policy.confClearance);
  }

  lemma TrustedIs(entries: seq<(InvocationId, PendingV)>, a: AgentId, l: IntegLevel, strict: bool)
    requires UniqueKeys(entries)
    ensures AllOwned(entries, a, LevelTrusted(l, strict)) <==> S.IntegHold(PendingsOf(AsMap(entries)), a, l, strict)
  {
    AllOwnedIs(entries, a, LevelTrusted(l, strict));
    var m := PendingsOf(AsMap(entries));
    assert forall i | i in m && S.Owned(m, i, a) ::
        LevelTrusted(l, strict)(m[i]) == S.IntegOk(l, m[i].policy, !strict && m[i].Vouched());
  }

  // ---- Holds ----

  method IngestConfHold(s: KernelState, bg: Background, a: AgentId, pconf: ConfLevel) returns (ok: bool)
    requires s.Valid()
    ensures ok <==> S.ConfHold(s.View().pending, bg, a, pconf, false)
  {
    ghost var passes := LevelLeaves(bg, pconf, false);
    ok := true;
    var i := 0;
    while i < |s.pending|
      invariant 0 <= i <= |s.pending|
      invariant ok <==> AllOwned(s.pending[..i], a, passes)
    {
      AllOwnedNext(s.pending, i, a, passes);
      var inv, j := MapVisit(s.pending, i);
      if j.Some? && j.value.agent == a {
        var pass := ChannelsPass(bg, pconf, j.value.egress, j.value.Vouched());
        if !pass {
          ok := false;
        }
      }
      i := i + 1;
    }
    assert s.pending[..i] == s.pending;
    LeavesIs(s.pending, bg, a, pconf, false);
  }

  method IngestClearHold(s: KernelState, a: AgentId, pconf: ConfLevel) returns (ok: bool)
    requires s.Valid()
    ensures ok <==> S.ClearHold(s.View().pending, a, pconf)
  {
    ghost var passes := LevelCleared(pconf);
    ok := true;
    var i := 0;
    while i < |s.pending|
      invariant 0 <= i <= |s.pending|
      invariant ok <==> AllOwned(s.pending[..i], a, passes)
    {
      AllOwnedNext(s.pending, i, a, passes);
      var inv, j := MapVisit(s.pending, i);
      if j.Some? && j.value.agent == a && !pconf.Le(j.value.policy.confClearance) {
        ok := false;
      }
      i := i + 1;
    }
    assert s.pending[..i] == s.pending;
    ClearedIs(s.pending, a, pconf);
  }

  method IngestIntegHold(s: KernelState, a: AgentId, pinteg: IntegLevel) returns (ok: bool)
    requires s.Valid()
    ensures ok <==> S.IntegHold(s.View().pending, a, pinteg, false)
  {
    ghost var passes := LevelTrusted(pinteg, false);
    ok := true;
    var i := 0;
    while i < |s.pending|
      invariant 0 <= i <= |s.pending|
      invariant ok <==> AllOwned(s.pending[..i], a, passes)
    {
      AllOwnedNext(s.pending, i, a, passes);
      var inv, j := MapVisit(s.pending, i);
      if j.Some? && j.value.agent == a {
        var allows := j.value.policy.integFloor.Le(pinteg);
        var inspects := j.value.policy.integInspect.Le(pinteg);
        if !(allows || (inspects && j.value.Vouched())) {
          ok := false;
        }
      }
      i := i + 1;
    }
    assert s.pending[..i] == s.pending;
    TrustedIs(s.pending, a, pinteg, false);
  }

  method IngestHolds(s: KernelState, bg: Background, a: AgentId, pconf: ConfLevel, pinteg: IntegLevel) returns (ok: bool)
    requires s.Valid()
    ensures ok <==> S.Holds(s.View().pending, bg, a, {pconf}, {pinteg})
  {
    ok := IngestConfHold(s, bg, a, pconf);
    if ok {
      ok := IngestClearHold(s, a, pconf);
    }
    if ok {
      ok := IngestIntegHold(s, a, pinteg);
    }
  }

  // ---- The admission gate ----

  method CheckCapability(s: KernelState, a: AgentId, snap: PolicyV) returns (ok: bool)
    requires s.Valid()
    ensures ok <==> S.CheckCapability(s.View(), a, PolicyOf(snap))
  {
    ghost var caps := SetAt(AsMap(s.agentCap), a);
    ghost var held := (c: CapKind) => c in caps;
    ok := true;
    var i := 0;
    while i < |snap.requiredCaps|
      invariant 0 <= i <= |snap.requiredCaps|
      invariant ok <==> AllOf(snap.requiredCaps[..i], held)
    {
      AllOfNext(snap.requiredCaps, i, held);
      var holds := MapSetContains(s.agentCap, a, snap.requiredCaps[i]);
      if !holds {
        ok := false;
      }
      i := i + 1;
    }
    assert snap.requiredCaps[..i] == snap.requiredCaps;
    assert caps == S.Of(s.View().caps, a);
  }

  method CheckClearance(s: KernelState, a: AgentId, snap: PolicyV) returns (ok: bool)
    requires s.Valid()
    ensures ok <==> S.CheckClearance(s.View(), a, PolicyOf(snap))
  {
    ghost var clears := (l: ConfLevel) => l.Le(snap.confClearance);
    ghost var cleared := LevelCleared(snap.outputConf);
    ok := true;
    var st := s.SpeculativeTaint(a);
    var i := 0;
    while i < |st|
      invariant 0 <= i <= |st|
      invariant ok <==> AllOf(st[..i], clears)
    {
      AllOfNext(st, i, clears);
      if !st[i].Le(snap.confClearance) {
        ok := false;
      }
      i := i + 1;
    }
    assert st[..i] == st;
    i := 0;
    while i < |s.pending|
      invariant 0 <= i <= |s.pending|
      invariant ok <==> AllOf(st, clears) && AllOwned(s.pending[..i], a, cleared)
    {
      AllOwnedNext(s.pending, i, a, cleared);
      var inv, j := MapVisit(s.pending, i);
      if j.Some? && j.value.agent == a && !snap.outputConf.Le(j.value.policy.confClearance) {
        ok := false;
      }
      i := i + 1;
    }
    assert s.pending[..i] == s.pending;
    ClearedIs(s.pending, a, snap.outputConf);
    if !snap.outputConf.Le(snap.confClearance) {
      ok := false;
    }
  }

  method CheckFlow(s: KernelState, bg: Background, a: AgentId, snap: PolicyV, egr: seq<EgressKind>, strict: bool)
    returns (ok: bool)
    requires s.Valid()
    ensures ok <==> S.CheckFlow(s.View(), bg, a, PolicyOf(snap), AsSet(egr), strict)
  {
    ghost var leaves := LevelExits(bg, AsSet(egr), !strict);
    ghost var admits := LevelLeaves(bg, snap.outputConf, strict);
    ok := true;
    var st := s.SpeculativeTaint(a);
    var i := 0;
    while i < |st|
      invariant 0 <= i <= |st|
      invariant ok <==> AllOf(st[..i], leaves)
    {
      AllOfNext(st, i, leaves);
      var pass := ChannelsPass(bg, st[i], egr, !strict);
      if !pass {
        ok := false;
      }
      i := i + 1;
    }
    assert st[..i] == st;
    i := 0;
    while i < |s.pending|
      invariant 0 <= i <= |s.pending|
      invariant ok <==> AllOf(st, leaves) && AllOwned(s.pending[..i], a, admits)
    {
      AllOwnedNext(s.pending, i, a, admits);
      var inv, j := MapVisit(s.pending, i);
      if j.Some? && j.value.agent == a {
        var pass := ChannelsPass(bg, snap.outputConf, j.value.egress, !strict && j.value.Vouched());
        if !pass {
          ok := false;
        }
      }
      i := i + 1;
    }
    assert s.pending[..i] == s.pending;
    ExitsIs(st, bg, AsSet(egr), !strict);
    LeavesIs(s.pending, bg, a, snap.outputConf, strict);
    var selfPass := ChannelsPass(bg, snap.outputConf, egr, !strict);
    if !selfPass {
      ok := false;
    }
  }

  method CheckInteg(s: KernelState, a: AgentId, snap: PolicyV, strict: bool) returns (ok: bool)
    requires s.Valid()
    ensures ok <==> S.CheckInteg(s.View(), a, PolicyOf(snap), strict)
  {
    ghost var clears := LevelSuffices(PolicyOf(snap), !strict);
    ghost var admits := LevelTrusted(snap.outputInteg, strict);
    ok := true;
    var si := s.SpeculativeInteg(a);
    var i := 0;
    while i < |si|
      invariant 0 <= i <= |si|
      invariant ok <==> AllOf(si[..i], clears)
    {
      AllOfNext(si, i, clears);
      var pass := if strict then snap.integFloor.Le(si[i])
                  else snap.integFloor.Le(si[i]) || snap.integInspect.Le(si[i]);
      if !pass {
        ok := false;
      }
      i := i + 1;
    }
    assert si[..i] == si;
    i := 0;
    while i < |s.pending|
      invariant 0 <= i <= |s.pending|
      invariant ok <==> AllOf(si, clears) && AllOwned(s.pending[..i], a, admits)
    {
      AllOwnedNext(s.pending, i, a, admits);
      var inv, j := MapVisit(s.pending, i);
      if j.Some? && j.value.agent == a {
        var p := j.value.policy;
        var pass := if strict then p.integFloor.Le(snap.outputInteg)
                    else p.integFloor.Le(snap.outputInteg) || (p.integInspect.Le(snap.outputInteg) && j.value.Vouched());
        if !pass {
          ok := false;
        }
      }
      i := i + 1;
    }
    assert s.pending[..i] == s.pending;
    SufficesIs(si, PolicyOf(snap), !strict);
    TrustedIs(s.pending, a, snap.outputInteg, strict);
    var selfPass := if strict then snap.integFloor.Le(snap.outputInteg)
                    else snap.integFloor.Le(snap.outputInteg) || snap.integInspect.Le(snap.outputInteg);
    if !selfPass {
      ok := false;
    }
  }

  method EgressNarrows(egr: seq<EgressKind>, declared: seq<EgressKind>) returns (ok: bool)
    ensures ok <==> AsSet(egr) <= AsSet(declared)
  {
    ghost var within := (e: EgressKind) => e in AsSet(declared);
    ok := true;
    var i := 0;
    while i < |egr|
      invariant 0 <= i <= |egr|
      invariant ok <==> AllOf(egr[..i], within)
    {
      AllOfNext(egr, i, within);
      var found := SetContains(declared, egr[i]);
      if !found {
        ok := false;
      }
      i := i + 1;
    }
    assert egr[..i] == egr;
  }

  method EgressCovers(declared: seq<EgressKind>, egr: seq<EgressKind>) returns (ok: bool)
    ensures ok <==> S.EgressCovers(AsSet(declared), AsSet(egr))
  {
    var d := new VecSet<EgressKind>.Clone(declared);
    var e := new VecSet<EgressKind>.Clone(egr);
    var noneDeclared := d.IsEmpty();
    if noneDeclared {
      ok := true;
    } else {
      var none := e.IsEmpty();
      ok := !none;
    }
  }

  /** Every check on its allow-or-inspect arm, in order. */
  method BeginAdmissible(s: KernelState, bg: Background, a: AgentId, snap: PolicyV, egr: seq<EgressKind>, authorized: bool)
    returns (ok: bool)
    requires s.Valid()
    ensures ok <==> S.Gate(s.View(), bg, a, PolicyOf(snap), AsSet(egr), authorized, false)
  {
    ok := CheckCapability(s, a, snap);
    ok := ok && authorized;
    if ok {
      ok := CheckClearance(s, a, snap);
    }
    if ok {
      ok := CheckFlow(s, bg, a, snap, egr, false);
    }
    if ok {
      ok := CheckInteg(s, a, snap, false);
    }
  }

  // ---- Scans for an entry ----

  ghost predicate AnyEntry<K, V>(entries: seq<(K, V)>, hit: V -> bool) {
    exists e | e in entries :: hit(e.1)
  }

  lemma AnyEntryNext<K, V>(entries: seq<(K, V)>, i: nat, hit: V -> bool)
    requires i < |entries|
    ensures AnyEntry(entries[..i + 1], hit) <==> AnyEntry(entries[..i], hit) || hit(entries[i].1)
  {
    assert entries[..i + 1] == entries[..i] + [entries[i]];
    assert entries[i] in entries[..i + 1];
    if AnyEntry(entries[..i], hit) {
      var e :| e in entries[..i] && hit(e.1);
      assert e in entries[..i + 1];
    }
  }

  lemma AnyEntryIs<K, V>(entries: seq<(K, V)>, hit: V -> bool)
    requires UniqueKeys(entries)
    ensures AnyEntry(entries, hit) <==> exists k | k in AsMap(entries) :: hit(AsMap(entries)[k])
  {
    AsMapEntries(entries);
    if AnyEntry(entries, hit) {
      var e :| e in entries && hit(e.1);
      assert e.0 in AsMap(entries) && hit(AsMap(entries)[e.0]);
    }
    if k :| k in AsMap(entries) && hit(AsMap(entries)[k]) {
      var i :| 0 <= i < |entries| && entries[i].0 == k;
      assert entries[i] in entries;
    }
  }

  ghost function RecordUses(tool: ToolId): PendingV -> bool {
    (j: PendingV) => j.policy.tool == tool
  }

  ghost function ScopeUses(tool: ToolId): ScopeV -> bool {
    (sc: ScopeV) => sc.policy.tool == tool
  }

  ghost function RecordOf(a: AgentId): PendingV -> bool {
    (j: PendingV) => j.agent == a
  }

  ghost function EdgeTo(a: AgentId): AgentId -> bool {
    (p: AgentId) => p == a
  }

  lemma IsParentIs(s: KernelState, a: AgentId)
    requires s.Valid()
    ensures AnyEntry(s.agentParent, EdgeTo(a)) <==> S.IsParent(s.View(), a)
  {
    hide SetsOf, PendingsOf, ScopesOf, AsMap, UniquePendings, UniqueScopes, UniqueValues;
    AsMapEntries(s.agentParent);
    if AnyEntry(s.agentParent, EdgeTo(a)) {
      var e :| e in s.agentParent && EdgeTo(a)(e.1);
      assert s.View().parent[e.0] == a;
    }
    if S.IsParent(s.View(), a) {
      var c :| c in s.View().parent && s.View().parent[c] == a;
      var i :| 0 <= i < |s.agentParent| && s.agentParent[i].0 == c;
      assert s.agentParent[i] in s.agentParent && EdgeTo(a)(s.agentParent[i].1);
    }
  }

  lemma RecordUsesIs(entries: seq<(InvocationId, PendingV)>, tool: ToolId)
    requires UniqueKeys(entries)
    ensures AnyEntry(entries, RecordUses(tool)) <==> S.ToolPending(PendingsOf(AsMap(entries)), tool)
  {
    AsMapEntries(entries);
    var m := PendingsOf(AsMap(entries));
    if AnyEntry(entries, RecordUses(tool)) {
      var e :| e in entries && RecordUses(tool)(e.1);
      assert m[e.0].policy.tool == tool;
    }
    if c :| c in m && m[c].policy.tool == tool {
      var i :| 0 <= i < |entries| && entries[i].0 == c;
      assert entries[i] in entries && RecordUses(tool)(entries[i].1);
    }
  }

  lemma ScopeUsesIs(entries: seq<(InvocationId, ScopeV)>, tool: ToolId)
    requires UniqueKeys(entries)
    ensures AnyEntry(entries, ScopeUses(tool)) <==> S.ToolChallenged(ScopesOf(AsMap(entries)), tool)
  {
    AsMapEntries(entries);
    var m := ScopesOf(AsMap(entries));
    if AnyEntry(entries, ScopeUses(tool)) {
      var e :| e in entries && ScopeUses(tool)(e.1);
      assert m[e.0].policy.tool == tool;
    }
    if c :| c in m && m[c].policy.tool == tool {
      var i :| 0 <= i < |entries| && entries[i].0 == c;
      assert entries[i] in entries && ScopeUses(tool)(entries[i].1);
    }
  }

  lemma InFlightIs(entries: seq<(InvocationId, PendingV)>, a: AgentId)
    requires UniqueKeys(entries)
    ensures AnyEntry(entries, RecordOf(a)) <==> S.InFlight(PendingsOf(AsMap(entries)), a)
  {
    AnyEntryIs(entries, RecordOf(a));
    var m := AsMap(entries);
    assert forall i | i in m :: RecordOf(a)(m[i]) == S.Owned(PendingsOf(m), i, a);
  }

  // ---- Registration ----

  method RegisterTool(s: KernelState, tool: ToolId) returns (r: Result<Action, KernelError>)
    requires s.Valid()
    modifies s
    ensures s.Valid()
    ensures Reply(r, s.View()) == S.RegisterToolStep(old(s.View()), tool)
    ensures r.Err? ==> s.View() == old(s.View())
  {
    var registered := SetContains(s.toolRegistered, tool);
    if registered {
      return Err(ToolAlreadyRegistered);
    }
    s.toolRegistered := SetInsert(s.toolRegistered, tool);
    return Ok(RegisteredTool(tool));
  }

  /** The two scans that latch `in_use`. */
  method ScanToolInUse(s: KernelState, tool: ToolId) returns (inUse: bool)
    requires s.Valid()
    ensures inUse <==> S.ToolInUseBy(s.View(), tool)
  {
    inUse := false;
    var i := 0;
    while i < |s.pending|
      invariant 0 <= i <= |s.pending|
      invariant inUse <==> AnyEntry(s.pending[..i], RecordUses(tool))
    {
      AnyEntryNext(s.pending, i, RecordUses(tool));
      var inv, j := MapVisit(s.pending, i);
      if j.Some? && j.value.policy.tool == tool {
        inUse := true;
      }
      i := i + 1;
    }
    assert s.pending[..i] == s.pending;
    i := 0;
    while i < |s.challenges|
      invariant 0 <= i <= |s.challenges|
      invariant inUse <==> AnyEntry(s.pending, RecordUses(tool)) || AnyEntry(s.challenges[..i], ScopeUses(tool))
    {
      AnyEntryNext(s.challenges, i, ScopeUses(tool));
      var inv, sc := MapVisit(s.challenges, i);
      if sc.Some? && sc.value.policy.tool == tool {
        inUse := true;
      }
      i := i + 1;
    }
    assert s.challenges[..i] == s.challenges;
    RecordUsesIs(s.pending, tool);
    ScopeUsesIs(s.challenges, tool);
  }

  method UnregisterTool(s: KernelState, tool: ToolId) returns (r: Result<Action, KernelError>)
    requires s.Valid()
    modifies s
    ensures s.Valid()
    ensures Reply(r, s.View()) == S.UnregisterToolStep(old(s.View()), tool)
    ensures r.Err? ==> s.View() == old(s.View())
  {
    var registered := SetContains(s.toolRegistered, tool);
    if !registered {
      return Err(ToolNotRegistered);
    }
    var inUse := ScanToolInUse(s, tool);
    if inUse {
      return Err(ToolInUse);
    }
    s.toolRegistered := SetRemove(s.toolRegistered, tool);
    return Ok(UnregisteredTool(tool));
  }

  // ---- The agent tree ----

  /** What revocation and delegation both destroy: capabilities, labels, records, challenges, grants. */
  method ClearCompartment(s: KernelState, agent: AgentId)
    requires s.Valid()
    modifies s
    ensures s.Valid()
    ensures s.View() == S.Clear(old(s.View()), agent).(active := old(s.View()).active, parent := old(s.View()).parent)
  {
    s.RemoveCaps(agent);
    s.RemoveTaint(agent);
    s.RemoveInteg(agent);
    s.DropPendingOf(agent);
    s.DropChallengesOf(agent);
    s.DropGrantsOf(agent);
  }

  /** Destroy everything the agent owns. */
  method ClearAgent(s: KernelState, agent: AgentId)
    requires s.Valid()
    modifies s
    ensures s.Valid()
    ensures s.View() == S.Clear(old(s.View()), agent)
  {
    s.agentActive := SetRemove(s.agentActive, agent);
    s.agentParent := MapRemove(s.agentParent, agent);
    ClearCompartment(s, agent);
  }

  /** The scan for an edge whose parent is `a`. */
  method ScanIsParent(s: KernelState, a: AgentId) returns (isParent: bool)
    requires s.Valid()
    ensures isParent <==> S.IsParent(s.View(), a)
  {
    isParent := false;
    var i := 0;
    while i < |s.agentParent|
      invariant 0 <= i <= |s.agentParent|
      invariant isParent <==> AnyEntry(s.agentParent[..i], EdgeTo(a))
    {
      AnyEntryNext(s.agentParent, i, EdgeTo(a));
      var child, p := MapVisit(s.agentParent, i);
      if p.Some? && p.value == a {
        isParent := true;
      }
      i := i + 1;
    }
    assert s.agentParent[..i] == s.agentParent;
    IsParentIs(s, a);
  }

  /** Keep every edge that does not touch `a`. */
  method EdgesAvoiding(entries: seq<(AgentId, AgentId)>, a: AgentId) returns (kept: seq<(AgentId, AgentId)>)
    requires UniqueKeys(entries)
    ensures UniqueKeys(kept)
    ensures AsMap(kept) == map c | c in AsMap(entries) && c != a && AsMap(entries)[c] != a :: AsMap(entries)[c]
  {
    ghost var keep := (c: AgentId, p: AgentId) => c != a && p != a;
    kept := [];
    var i := 0;
    while i < |entries|
      invariant 0 <= i <= |entries|
      invariant UniqueKeys(kept) && AsMap(kept) == AsMap(Keep(entries[..i], keep))
    {
      KeepNext(entries, i, keep);
      var child, p := MapVisit(entries, i);
      if p.Some? && child != a && p.value != a {
        kept := MapInsert(kept, child, p.value);
      }
      i := i + 1;
    }
    assert entries[..i] == entries;
    KeepIs(entries, keep);
  }

  /** Activate the grantee below the grantor; no other edge touches it. */
  method Attach(s: KernelState, grantor: AgentId, grantee: AgentId)
    requires s.Valid()
    modifies s
    ensures s.Valid()
    ensures var before := old(s.View());
            var kept := map c | c in before.parent && c != grantee && before.parent[c] != grantee :: before.parent[c];
            s.View() == before.(active := before.active + {grantee}, parent := kept[grantee := grantor])
  {
    s.agentActive := SetInsert(s.agentActive, grantee);
    var kept := EdgesAvoiding(s.agentParent, grantee);
    s.agentParent := MapInsert(kept, grantee, grantor);
  }

  /** Activate the grantee below the grantor, with an empty compartment. */
  method Adopt(s: KernelState, grantor: AgentId, grantee: AgentId)
    requires s.Valid()
    modifies s
    ensures s.Valid()
    ensures var before := old(s.View());
            var kept := map c | c in before.parent && c != grantee && before.parent[c] != grantee :: before.parent[c];
            s.View() == S.Clear(before, grantee).(active := before.active + {grantee}, parent := kept[grantee := grantor])
  {
    hide S.DropPending, S.DropChallenges, S.DropGrants, KernelState.View, KernelState.Valid;
    Attach(s, grantor, grantee);
    ClearCompartment(s, grantee);
  }

  method Delegate(s: KernelState, bg: Background, grantor: AgentId, grantee: AgentId) returns (r: Result<Action, KernelError>)
    requires s.Valid()
    modifies s
    ensures s.Valid()
    ensures Reply(r, s.View()) == S.DelegateStep(old(s.View()), bg, grantor, grantee)
    ensures r.Err? ==> s.View() == old(s.View())
  {
    var active := SetContains(s.agentActive, grantor);
    if !active {
      return Err(AgentInactive);
    }
    var already := SetContains(s.agentActive, grantee);
    if already {
      return Err(AgentAlreadyActive);
    }
    if grantee == bg.rootAgent {
      return Err(RootNotAllowed);
    }
    var isParent := ScanIsParent(s, grantee);
    if isParent {
      return Err(AgentHasChildren);
    }
    Adopt(s, grantor, grantee);
    return Ok(Delegated(grantor, grantee));
  }

  /** The recorded parent of `child` is `parent`. */
  method HasParent(s: KernelState, child: AgentId, parent: AgentId) returns (ok: bool)
    requires s.Valid()
    ensures ok <==> S.IsEdge(s.View(), child, parent)
  {
    var p := MapGet(s.agentParent, child);
    ok := p.Some? && p.value == parent;
  }

  method GrantCapability(s: KernelState, parent: AgentId, child: AgentId, cap: CapKind) returns (r: Result<Action, KernelError>)
    requires s.Valid()
    modifies s
    ensures s.Valid()
    ensures Reply(r, s.View()) == S.GrantCapabilityStep(old(s.View()), parent, child, cap)
    ensures r.Err? ==> s.View() == old(s.View())
  {
    var parentActive := SetContains(s.agentActive, parent);
    if !parentActive {
      return Err(AgentInactive);
    }
    var childActive := SetContains(s.agentActive, child);
    if !childActive {
      return Err(AgentInactive);
    }
    var parentOk := HasParent(s, child, parent);
    if !parentOk {
      return Err(NotDirectChild);
    }
    var held := MapSetContains(s.agentCap, parent, cap);
    assert held <==> cap in S.Of(s.View().caps, parent);
    if !held {
      return Err(CapabilityMissing);
    }
    s.AddCap(child, cap);
    return Ok(GrantedCapability(parent, child, cap));
  }

  method GrantCrossing(s: KernelState, bg: Background, grantor: AgentId, agent: AgentId,
                       assignment: AssignmentDigest, n: U32) returns (r: Result<Action, KernelError>)
    requires s.Valid()
    modifies s
    ensures s.Valid()
    ensures Reply(r, s.View()) == S.GrantCrossingStep(old(s.View()), bg, grantor, agent, assignment, n)
    ensures r.Err? ==> s.View() == old(s.View())
  {
    if grantor != bg.rootAgent {
      return Err(NotRoot);
    }
    var grantorActive := SetContains(s.agentActive, grantor);
    if !grantorActive {
      return Err(AgentInactive);
    }
    var agentActive := SetContains(s.agentActive, agent);
    if !agentActive {
      return Err(AgentInactive);
    }
    var key := CrossingKey(agent, assignment);
    s.crossingGrants := MapInsert(s.crossingGrants, key, CrossingGrant(n, n));
    return Ok(GrantedCrossing(grantor, agent, assignment, n));
  }

  method Revoke(s: KernelState, bg: Background, parent: AgentId, target: AgentId) returns (r: Result<Action, KernelError>)
    requires s.Valid()
    modifies s
    ensures s.Valid()
    ensures Reply(r, s.View()) == S.RevokeStep(old(s.View()), bg, parent, target)
    ensures r.Err? ==> s.View() == old(s.View())
  {
    var parentOk := HasParent(s, target, parent);
    if !parentOk {
      return Err(NotDirectChild);
    }
    var parentActive := SetContains(s.agentActive, parent);
    if !parentActive {
      return Err(AgentInactive);
    }
    var targetActive := SetContains(s.agentActive, target);
    if !targetActive {
      return Err(AgentInactive);
    }
    if target == bg.rootAgent {
      return Err(RootNotAllowed);
    }
    ClearAgent(s, target);
    return Ok(Revoked(parent, target));
  }

  method CascadeRevoke(s: KernelState, bg: Background, child: AgentId, parent: AgentId) returns (r: Result<Action, KernelError>)
    requires s.Valid()
    modifies s
    ensures s.Valid()
    ensures Reply(r, s.View()) == S.CascadeRevokeStep(old(s.View()), bg, child, parent)
    ensures r.Err? ==> s.View() == old(s.View())
  {
    var parentOk := HasParent(s, child, parent);
    if !parentOk {
      return Err(NotDirectChild);
    }
    var parentActive := SetContains(s.agentActive, parent);
    if parentActive {
      return Err(ParentStillActive);
    }
    var childActive := SetContains(s.agentActive, child);
    if !childActive {
      return Err(AgentInactive);
    }
    if child == bg.rootAgent {
      return Err(RootNotAllowed);
    }
    ClearAgent(s, child);
    return Ok(CascadeRevoked(child, parent));
  }

  // ---- Label deliveries ----

  method TaintBelow(s: KernelState, src: AgentId, bound: ConfLevel) returns (ok: bool)
    requires s.Valid()
    ensures ok <==> forall l | l in S.Of(s.View().taint, src) :: l.Le(bound)
  {
    ghost var below := (l: ConfLevel) => l.Le(bound);
    ok := true;
    var held := MapGetSet(s.taintLevels, src);
    var i := 0;
    while i < |held|
      invariant 0 <= i <= |held|
      invariant ok <==> AllOf(held[..i], below)
    {
      AllOfNext(held, i, below);
      if !held[i].Le(bound) {
        ok := false;
      }
      i := i + 1;
    }
    assert held[..i] == held;
    assert AsSet(held) == S.Of(s.View().taint, src);
    assert forall l :: l in held <==> l in AsSet(held);
  }

  method IntegAbove(s: KernelState, src: AgentId, bound: IntegLevel) returns (ok: bool)
    requires s.Valid()
    ensures ok <==> forall l | l in S.Of(s.View().integ, src) :: bound.Le(l)
  {
    ghost var above := (l: IntegLevel) => bound.Le(l);
    ok := true;
    var held := MapGetSet(s.integLevels, src);
    var i := 0;
    while i < |held|
      invariant 0 <= i <= |held|
      invariant ok <==> AllOf(held[..i], above)
    {
      AllOfNext(held, i, above);
      if !bound.Le(held[i]) {
        ok := false;
      }
      i := i + 1;
    }
    assert held[..i] == held;
    assert AsSet(held) == S.Of(s.View().integ, src);
    assert forall l :: l in held <==> l in AsSet(held);
  }

  method DominatesSource(s: KernelState, src: AgentId, pconf: ConfLevel, pinteg: IntegLevel) returns (ok: bool)
    requires s.Valid()
    ensures ok <==> S.Dominates(s.View(), src, pconf, pinteg)
  {
    var confDominated := TaintBelow(s, src, pconf);
    var integDominated := IntegAbove(s, src, pinteg);
    ok := confDominated && integDominated;
  }

  /** Insert one level in each dimension; a bypassed release demotes. */
  method ReleasePair(s: KernelState, a: AgentId, pconf: ConfLevel, pinteg: IntegLevel, bypassed: bool)
    requires s.Valid()
    modifies s
    ensures s.Valid()
    ensures s.View() == S.Release(old(s.View()), a, {pconf}, {pinteg}, bypassed)
  {
    s.AddTaint(a, pconf);
    s.AddInteg(a, pinteg);
    if bypassed {
      s.DemoteAllOf(a);
    }
  }

  method Ingest(s: KernelState, bg: Background, a: AgentId, src: Option<AgentId>, pconf: ConfLevel, pinteg: IntegLevel)
    returns (r: Result<Action, KernelError>)
    requires s.Valid()
    modifies s
    ensures s.Valid()
    ensures Reply(r, s.View()) == S.IngestStep(old(s.View()), bg, a, src, pconf, pinteg)
    ensures r.Err? ==> s.View() == old(s.View())
  {
    var active := SetContains(s.agentActive, a);
    if !active {
      return Err(AgentInactive);
    }
    if src.Some? {
      var dominated := DominatesSource(s, src.value, pconf, pinteg);
      if !dominated {
        return Err(ProvenanceNotDominated);
      }
    }
    var holds := IngestHolds(s, bg, a, pconf, pinteg);
    if !holds && bg.mode != Monitor {
      return Err(IngestHoldFailed);
    }
    ReleasePair(s, a, pconf, pinteg, !holds);
    return Ok(Ingested(a, src, pconf, pinteg, if holds then Permitted else MonitorBypassed));
  }

  // ---- Settlement ----

  /** A record stored in the pending map keeps its sets unique. */
  lemma StoredRecord(s: KernelState, inv: InvocationId)
    requires s.Valid() && inv in AsMap(s.pending)
    ensures var j := AsMap(s.pending)[inv];
            UniquePolicy(j.policy) && Unique(j.egress) && s.View().pending[inv] == PendingOf(j)
  {
    AsMapEntries(s.pending);
    var i :| 0 <= i < |s.pending| && s.pending[i].0 == inv;
    assert s.pending[i] in s.pending;
  }

  lemma StoredScope(s: KernelState, inv: InvocationId)
    requires s.Valid() && inv in AsMap(s.challenges)
    ensures var sc := AsMap(s.challenges)[inv];
            UniquePolicy(sc.policy) && Unique(sc.egress) && s.View().challenges[inv] == ScopeOf(sc)
  {
    AsMapEntries(s.challenges);
    var i :| 0 <= i < |s.challenges| && s.challenges[i].0 == inv;
    assert s.challenges[i] in s.challenges;
  }

  method FindPending(s: KernelState, inv: InvocationId) returns (found: Option<PendingV>)
    requires s.Valid()
    ensures found.None? <==> inv !in s.View().pending
    ensures found.Some? ==>
              UniquePolicy(found.value.policy) && Unique(found.value.egress) && s.View().pending[inv] == PendingOf(found.value)
  {
    found := MapGet(s.pending, inv);
    if found.Some? {
      StoredRecord(s, inv);
    }
  }

  method FindChallenge(s: KernelState, inv: InvocationId) returns (found: Option<ScopeV>)
    requires s.Valid()
    ensures found.None? <==> inv !in s.View().challenges
    ensures found.Some? ==>
              UniquePolicy(found.value.policy) && Unique(found.value.egress) && s.View().challenges[inv] == ScopeOf(found.value)
  {
    found := MapGet(s.challenges, inv);
    if found.Some? {
      StoredScope(s, inv);
    }
  }

  /** A quarantined record needs a scoped, unspent resolution; any other record forbids one. */
  method CheckResolution(s: KernelState, inv: InvocationId, quarantined: bool, outcome: Outcome,
                         att: Option<ResolutionAttestation>) returns (refusal: Option<KernelError>)
    requires s.Valid()
    ensures refusal == if quarantined && outcome == Ambiguous then Some(QuarantineResolutionRequired)
                       else if quarantined && !S.ResolutionValid(s.View(), inv, outcome, att) then Some(ResolutionAttestationInvalid)
                       else if !quarantined && att.Some? then Some(NotQuarantined)
                       else None
  {
    if quarantined {
      if outcome == Ambiguous {
        return Some(QuarantineResolutionRequired);
      }
      var valid := false;
      if att.Some? && att.value.inv == inv && att.value.outcome == outcome {
        var spent := SetContains(s.consumedAttestations, att.value.id);
        valid := !spent;
      }
      if !valid {
        return Some(ResolutionAttestationInvalid);
      }
    } else if att.Some? {
      return Some(NotQuarantined);
    }
    return None;
  }

  /** Close or quarantine the record, demote after a bypassed one, and absorb its output pair. */
  method SettleRecord(s: KernelState, inv: InvocationId, j: PendingV, outcome: Outcome)
    requires s.Valid() && UniquePolicy(j.policy) && Unique(j.egress)
    modifies s
    ensures s.Valid()
    ensures var before := old(s.View());
            var settled := if outcome == Ambiguous then before.pending[inv := PendingOf(j).(quarantined := true)]
                           else before.pending - {inv};
            s.View() == before.(
              pending := if j.disposition == Permitted then settled else S.Demote(settled, j.agent),
              taint := if outcome == Ambiguous then before.taint else S.Extend(before.taint, j.agent, {j.policy.outputConf}),
              integ := if outcome == Ambiguous then before.integ else S.Extend(before.integ, j.agent, {j.policy.outputInteg}))
  {
    if outcome == Ambiguous {
      s.InsertPending(inv, j.(quarantined := true));
    } else {
      s.RemovePending(inv);
    }
    if j.disposition != Permitted {
      s.DemoteAllOf(j.agent);
    }
    if outcome != Ambiguous {
      s.AddTaint(j.agent, j.policy.outputConf);
      s.AddInteg(j.agent, j.policy.outputInteg);
    }
  }

  method SpendResolution(s: KernelState, att: Option<ResolutionAttestation>) returns (resolution: Option<AttestationId>)
    requires s.Valid()
    modifies s
    ensures s.Valid()
    ensures resolution == if att.Some? then Some(att.value.id) else None
    ensures s.View() == old(s.View()).(
              consumedAttestations := old(s.View()).consumedAttestations + (if att.Some? then {att.value.id} else {}))
  {
    resolution := None;
    if att.Some? {
      s.ConsumeAttestation(att.value.id);
      resolution := Some(att.value.id);
    }
  }

  method SettleInvocation(s: KernelState, inv: InvocationId, outcome: Outcome, att: Option<ResolutionAttestation>)
    returns (r: Result<Action, KernelError>)
    requires s.Valid()
    modifies s
    ensures s.Valid()
    ensures Reply(r, s.View()) == S.SettleStep(old(s.View()), inv, outcome, att)
    ensures r.Err? ==> s.View() == old(s.View())
  {
    var found := FindPending(s, inv);
    if found.None? {
      return Err(NotPending);
    }
    var j := found.value;
    var active := SetContains(s.agentActive, j.agent);
    if !active {
      return Err(AgentInactive);
    }
    if j.disposition == Blocked {
      return Err(BlockedPending);
    }
    var refusal := CheckResolution(s, inv, j.quarantined, outcome, att);
    if refusal.Some? {
      return Err(refusal.value);
    }
    SettleRecord(s, inv, j, outcome);
    var resolution := SpendResolution(s, att);
    return Ok(SettledInvocation(inv, j.agent, j.disposition, outcome, j.policy.outputConf, j.policy.outputInteg, resolution));
  }

  // ---- Admission ----

  /** The structural guards of admission, in order. */
  method BeginGuards(s: KernelState, bg: Background, a: AgentId, inv: InvocationId, snap: PolicyV, egr: seq<EgressKind>)
    returns (refusal: Option<KernelError>)
    requires s.Valid()
    ensures refusal ==
            if a !in s.View().active then Some(AgentInactive)
            else if a == bg.rootAgent then Some(RootNotAllowed)
            else if snap.tool !in s.View().tools then Some(ToolNotRegistered)
            else if !snap.integInspect.Le(snap.integFloor) then Some(IncoherentPolicy)
            else if inv in s.View().pending then Some(InvocationExists)
            else if inv in s.View().consumedIds then Some(InvocationReplayed)
            else if inv in s.View().challenges then Some(ChallengeAlreadyOpen)
            else if !(AsSet(egr) <= AsSet(snap.declaredEgress)) then Some(EgressNotNarrowing)
            else if !S.EgressCovers(AsSet(snap.declaredEgress), AsSet(egr)) then Some(EgressNotCovering)
            else None
  {
    var active := SetContains(s.agentActive, a);
    if !active {
      return Some(AgentInactive);
    }
    if a == bg.rootAgent {
      return Some(RootNotAllowed);
    }
    var registered := SetContains(s.toolRegistered, snap.tool);
    if !registered {
      return Some(ToolNotRegistered);
    }
    if !snap.integInspect.Le(snap.integFloor) {
      return Some(IncoherentPolicy);
    }
    var known := MapContains(s.pending, inv);
    if known {
      return Some(InvocationExists);
    }
    var replayed := SetContains(s.consumedIds, inv);
    if replayed {
      return Some(InvocationReplayed);
    }
    var challenged := MapContains(s.challenges, inv);
    if challenged {
      return Some(ChallengeAlreadyOpen);
    }
    var narrows := EgressNarrows(egr, snap.declaredEgress);
    if !narrows {
      return Some(EgressNotNarrowing);
    }
    var covers := EgressCovers(snap.declaredEgress, egr);
    if !covers {
      return Some(EgressNotCovering);
    }
    return None;
  }

  /** The computed verdict, and the denial that enforce mode reports. */
  method Judge(s: KernelState, bg: Background, a: AgentId, snap: PolicyV, egr: seq<EgressKind>, authorized: bool)
    returns (verdict: Verdict, denial: KernelError)
    requires s.Valid()
    ensures verdict == S.VerdictOf(s.View(), bg, a, PolicyOf(snap), AsSet(egr), authorized)
    ensures denial == S.DenialOf(s.View(), bg, a, PolicyOf(snap), AsSet(egr), authorized)
  {
    var cap := CheckCapability(s, a, snap);
    var clear := CheckClearance(s, a, snap);
    var flowStrict := CheckFlow(s, bg, a, snap, egr, true);
    var flowAdm := CheckFlow(s, bg, a, snap, egr, false);
    var integStrict := CheckInteg(s, a, snap, true);
    var integAdm := CheckInteg(s, a, snap, false);
    var allow := cap && authorized && clear && flowStrict && integStrict;
    var admissible := cap && authorized && clear && flowAdm && integAdm;
    verdict := if allow then Allow else if admissible then InspectionRequired else Deny;
    denial := if !cap then CapabilityMissing
              else if !authorized then AuthorizerDenied
              else if !clear then ClearanceDenied
              else if !flowAdm then FlowGateBlocked
              else IntegrityFloorDenied;
  }

  /** The effect that the verdict and the mode select. */
  method RecordBegin(s: KernelState, bg: Background, a: AgentId, inv: InvocationId, chal: ChallengeId, snap: PolicyV,
                     egr: seq<EgressKind>, ah: ContentHash, authorized: bool, verdict: Verdict)
    requires s.Valid() && UniquePolicy(snap) && Unique(egr)
    modifies s
    ensures s.Valid()
    ensures s.View() == S.BeginNext(old(s.View()), bg, a, inv, chal, PolicyOf(snap), AsSet(egr), ah, authorized, verdict)
  {
    if verdict == Allow {
      s.InsertPending(inv, Pending(a, snap, egr, Plain, Permitted, authorized, false));
    } else if bg.mode == Monitor {
      s.InsertPending(inv, Pending(a, snap, egr, Bypassed, MonitorBypassed, authorized, false));
    } else {
      s.InsertChallenge(inv, Scope(chal, a, snap, egr, ah, authorized));
    }
    s.ConsumeId(inv);
  }

  method BeginInvocation(s: KernelState, bg: Background, a: AgentId, inv: InvocationId, chal: ChallengeId, snap: PolicyV,
                         egr: seq<EgressKind>, ah: ContentHash, authorized: bool) returns (r: Result<Action, KernelError>)
    requires s.Valid() && UniquePolicy(snap) && Unique(egr)
    modifies s
    ensures s.Valid()
    ensures Reply(r, s.View()) == S.BeginStep(old(s.View()), bg, a, inv, chal, PolicyOf(snap), AsSet(egr), ah, authorized)
    ensures r.Err? ==> s.View() == old(s.View())
  {
    var refusal := BeginGuards(s, bg, a, inv, snap, egr);
    if refusal.Some? {
      return Err(refusal.value);
    }
    var verdict, denial := Judge(s, bg, a, snap, egr, authorized);
    if verdict == Deny && bg.mode == Enforce {
      return Err(denial);
    }
    RecordBegin(s, bg, a, inv, chal, snap, egr, ah, authorized, verdict);
    return Ok(BeganInvocation(a, inv, snap.tool, verdict, authorized));
  }

  /** The structural conditions and the live gate for an open challenge. */
  method AuthorizeAdmits(s: KernelState, bg: Background, inv: InvocationId, sc: ScopeV) returns (ok: bool)
    requires s.Valid()
    ensures ok <==> S.AuthorizeAdmits(s.View(), bg, inv, ScopeOf(sc))
  {
    ok := SetContains(s.agentActive, sc.agent);
    ok := ok && sc.agent != bg.rootAgent;
    if ok {
      ok := SetContains(s.toolRegistered, sc.policy.tool);
    }
    ok := ok && sc.policy.integInspect.Le(sc.policy.integFloor);
    if ok {
      var present := MapContains(s.pending, inv);
      ok := !present;
    }
    if ok {
      ok := EgressNarrows(sc.egress, sc.policy.declaredEgress);
    }
    if ok {
      ok := EgressCovers(sc.policy.declaredEgress, sc.egress);
    }
    if ok {
      ok := BeginAdmissible(s, bg, sc.agent, sc.policy, sc.egress, sc.authorized);
    }
  }

  /** Close the challenge, spend the attestation, and create the vouched record when admitted. */
  method Resolve(s: KernelState, inv: InvocationId, sc: ScopeV, id: AttestationId, admit: bool)
    requires s.Valid() && UniquePolicy(sc.policy) && Unique(sc.egress)
    modifies s
    ensures s.Valid()
    ensures var before := old(s.View());
            var k := ScopeOf(sc);
            var record := Pending(k.agent, k.policy, k.egress, Inspected(id), Permitted, k.authorized, false);
            s.View() == before.(pending := if admit then before.pending[inv := record] else before.pending,
                                challenges := before.challenges - {inv},
                                consumedAttestations := before.consumedAttestations + {id})
  {
    if admit {
      s.InsertPending(inv, Pending(sc.agent, sc.policy, sc.egress, Inspected(id), Permitted, sc.authorized, false));
    }
    s.RemoveChallenge(inv);
    s.ConsumeAttestation(id);
  }

  method AuthorizeInspected(s: KernelState, bg: Background, inv: InvocationId, att: InspectionAttestation)
    returns (r: Result<Action, KernelError>)
    requires s.Valid()
    modifies s
    ensures s.Valid()
    ensures Reply(r, s.View()) == S.AuthorizeStep(old(s.View()), bg, inv, att)
    ensures r.Err? ==> s.View() == old(s.View())
  {
    var found := FindChallenge(s, inv);
    if found.None? {
      return Err(ChallengeNotOpen);
    }
    var sc := found.value;
    if att.inv != inv || att.challenge != sc.challenge || att.argsHash != sc.argsHash
       || att.policyDigest != sc.policy.policyDigest
    {
      return Err(ChallengeScopeMismatch);
    }
    var spent := SetContains(s.consumedAttestations, att.id);
    if spent {
      return Err(AttestationConsumed);
    }
    var admit := att.positive;
    if admit {
      admit := AuthorizeAdmits(s, bg, inv, sc);
    }
    Resolve(s, inv, sc, att.id, admit);
    return Ok(AuthorizedInspected(inv, att.id, admit));
  }

  // ---- Crossings ----

  method EndorsedOk(s: KernelState, q: CrossInput) returns (ok: bool)
    requires s.Valid()
    ensures ok <==> S.EndorsedOk(s.View(), q)
  {
    if q.evidence.None? {
      return false;
    }
    var e := q.evidence.value;
    var spent := SetContains(s.consumedAttestations, e.id);
    var evidenceOk := e.positive && !spent && e.output == q.outputHash && e.src == q.src && e.rcv == q.rcv
                      && e.descriptor == q.descriptor && e.assignment == q.assignment;
    if !evidenceOk {
      return false;
    }
    var g := MapGet(s.crossingGrants, CrossingKey(q.rcv, q.assignment));
    return g.Some? && g.value.remaining > 0;
  }

  method ScanInFlight(s: KernelState, a: AgentId) returns (inFlight: bool)
    requires s.Valid()
    ensures inFlight <==> S.InFlight(s.View().pending, a)
  {
    inFlight := false;
    var i := 0;
    while i < |s.pending|
      invariant 0 <= i <= |s.pending|
      invariant inFlight <==> AnyEntry(s.pending[..i], RecordOf(a))
    {
      AnyEntryNext(s.pending, i, RecordOf(a));
      var inv, j := MapVisit(s.pending, i);
      if j.Some? && j.value.agent == a {
        inFlight := true;
      }
      i := i + 1;
    }
    assert s.pending[..i] == s.pending;
    InFlightIs(s.pending, a);
  }

  /** The assignment bounds of an endorsed crossing. */
  method CheckBounds(s: KernelState, q: CrossInput) returns (ok: bool)
    requires s.Valid()
    ensures ok <==> S.WithinBounds(s.View(), q)
  {
    if !q.releasedInteg.Le(q.tInteg) {
      return false;
    }
    if q.tConf.Some? {
      return q.releasedConf.Le(q.tConf.value);
    }
    ok := TaintBelow(s, q.src, q.releasedConf);
  }

  ghost function ConfHeld(pending: map<InvocationId, PendingK>, bg: Background, a: AgentId): ConfLevel -> bool {
    (l: ConfLevel) => S.ConfHold(pending, bg, a, l, false) && S.ClearHold(pending, a, l)
  }

  ghost function IntegHeld(pending: map<InvocationId, PendingK>, a: AgentId): IntegLevel -> bool {
    (l: IntegLevel) => S.IntegHold(pending, a, l, false)
  }

  /** Scanning two lists of levels answers the holds for releasing them all. */
  lemma HoldsIs(pending: map<InvocationId, PendingK>, bg: Background, a: AgentId, confs: seq<ConfLevel>, integs: seq<IntegLevel>)
    ensures AllOf(confs, ConfHeld(pending, bg, a)) && AllOf(integs, IntegHeld(pending, a))
        <==> S.Holds(pending, bg, a, AsSet(confs), AsSet(integs))
  {
    assert forall l: ConfLevel :: ConfHeld(pending, bg, a)(l) == (S.ConfHold(pending, bg, a, l, false) && S.ClearHold(pending, a, l));
    assert forall l: IntegLevel :: IntegHeld(pending, a)(l) == S.IntegHold(pending, a, l, false);
  }

  method EveryConfHolds(s: KernelState, bg: Background, a: AgentId, levels: seq<ConfLevel>) returns (ok: bool)
    requires s.Valid()
    ensures ok <==> AllOf(levels, ConfHeld(s.View().pending, bg, a))
  {
    ok := true;
    var i := 0;
    while i < |levels|
      invariant 0 <= i <= |levels|
      invariant ok <==> AllOf(levels[..i], ConfHeld(s.View().pending, bg, a))
    {
      AllOfNext(levels, i, ConfHeld(s.View().pending, bg, a));
      var conf := IngestConfHold(s, bg, a, levels[i]);
      var clear := IngestClearHold(s, a, levels[i]);
      if !conf || !clear {
        ok := false;
      }
      i := i + 1;
    }
    assert levels[..i] == levels;
  }

  method EveryIntegHolds(s: KernelState, a: AgentId, levels: seq<IntegLevel>) returns (ok: bool)
    requires s.Valid()
    ensures ok <==> AllOf(levels, IntegHeld(s.View().pending, a))
  {
    ok := true;
    var i := 0;
    while i < |levels|
      invariant 0 <= i <= |levels|
      invariant ok <==> AllOf(levels[..i], IntegHeld(s.View().pending, a))
    {
      AllOfNext(levels, i, IntegHeld(s.View().pending, a));
      var hold := IngestIntegHold(s, a, levels[i]);
      if !hold {
        ok := false;
      }
      i := i + 1;
    }
    assert levels[..i] == levels;
  }

  /** The holds for every level the source holds. */
  method SourceHolds(s: KernelState, bg: Background, src: AgentId, rcv: AgentId) returns (ok: bool)
    requires s.Valid()
    ensures ok <==> S.Holds(s.View().pending, bg, rcv, S.Of(s.View().taint, src), S.Of(s.View().integ, src))
  {
    var taint := MapGetSet(s.taintLevels, src);
    var integ := MapGetSet(s.integLevels, src);
    var confs := EveryConfHolds(s, bg, rcv, taint);
    var integs := EveryIntegHolds(s, rcv, integ);
    ok := confs && integs;
    HoldsIs(s.View().pending, bg, rcv, taint, integ);
  }

  method CrossHolds(s: KernelState, bg: Background, q: CrossInput, branch: CrossBranch) returns (ok: bool)
    requires s.Valid() && branch == S.BranchOf(s.View(), q)
    ensures ok <==> S.Holds(s.View().pending, bg, q.rcv, S.ReleasedConfs(s.View(), q), S.ReleasedIntegs(s.View(), q))
  {
    match branch
    case Endorsed => ok := IngestHolds(s, bg, q.rcv, q.releasedConf, q.releasedInteg);
    case Unendorsed => ok := SourceHolds(s, bg, q.src, q.rcv);
    case BranchFail => ok := true;
  }

  lemma ExtendNext<T>(m: map<AgentId, set<T>>, a: AgentId, items: seq<T>, i: nat)
    requires i < |items|
    ensures S.Extend(S.Extend(m, a, AsSet(items[..i])), a, {items[i]}) == S.Extend(m, a, AsSet(items[..i + 1]))
  {
    assert items[..i + 1] == items[..i] + [items[i]];
    assert AsSet(items[..i + 1]) == AsSet(items[..i]) + {items[i]};
    var seen := AsSet(items[..i]);
    if seen == {} {
      assert AsSet(items[..i + 1]) == {items[i]};
    } else {
      assert S.Of(m, a) + seen + {items[i]} == S.Of(m, a) + (seen + {items[i]});
      assert m[a := S.Of(m, a) + seen][a := S.Of(m, a) + seen + {items[i]}] == m[a := S.Of(m, a) + seen + {items[i]}];
    }
  }

  method AddEveryTaint(s: KernelState, a: AgentId, levels: seq<ConfLevel>)
    requires s.Valid()
    modifies s
    ensures s.Valid()
    ensures s.View() == old(s.View()).(taint := S.Extend(old(s.View()).taint, a, AsSet(levels)))
  {
    var i := 0;
    while i < |levels|
      invariant 0 <= i <= |levels| && s.Valid()
      invariant s.View() == old(s.View()).(taint := S.Extend(old(s.View()).taint, a, AsSet(levels[..i])))
    {
      ExtendNext(old(s.View()).taint, a, levels, i);
      s.AddTaint(a, levels[i]);
      i := i + 1;
    }
    assert levels[..i] == levels;
  }

  method AddEveryInteg(s: KernelState, a: AgentId, levels: seq<IntegLevel>)
    requires s.Valid()
    modifies s
    ensures s.Valid()
    ensures s.View() == old(s.View()).(integ := S.Extend(old(s.View()).integ, a, AsSet(levels)))
  {
    var i := 0;
    while i < |levels|
      invariant 0 <= i <= |levels| && s.Valid()
      invariant s.View() == old(s.View()).(integ := S.Extend(old(s.View()).integ, a, AsSet(levels[..i])))
    {
      ExtendNext(old(s.View()).integ, a, levels, i);
      s.AddInteg(a, levels[i]);
      i := i + 1;
    }
    assert levels[..i] == levels;
  }

  /** Release what the branch releases into the receiver. */
  method ReleaseLabels(s: KernelState, q: CrossInput, branch: CrossBranch)
    requires s.Valid() && branch == S.BranchOf(s.View(), q)
    modifies s
    ensures s.Valid()
    ensures var before := old(s.View());
            s.View() == S.Release(before, q.rcv, S.ReleasedConfs(before, q), S.ReleasedIntegs(before, q), false)
  {
    match branch
    case Endorsed =>
      s.AddTaint(q.rcv, q.releasedConf);
      s.AddInteg(q.rcv, q.releasedInteg);
    case Unendorsed =>
      var taint := MapGetSet(s.taintLevels, q.src);
      assert AsSet(taint) == S.Of(s.View().taint, q.src);
      AddEveryTaint(s, q.rcv, taint);
      var integ := MapGetSet(s.integLevels, q.src);
      assert AsSet(integ) == S.Of(s.View().integ, q.src);
      AddEveryInteg(s, q.rcv, integ);
    case BranchFail =>
  }

  /** Burn the crossing id; an endorsement also spends its evidence and one grant use. */
  method SpendCrossing(s: KernelState, q: CrossInput, branch: CrossBranch)
    requires s.Valid()
    requires branch == Endorsed ==> q.evidence.Some? && CrossingKey(q.rcv, q.assignment) in s.View().grants
                                    && s.View().grants[CrossingKey(q.rcv, q.assignment)].remaining > 0
    modifies s
    ensures s.Valid()
    ensures var before := old(s.View());
            var burned := before.(consumedCrossings := before.consumedCrossings + {q.crossing});
            s.View() == if branch != Endorsed then burned
                        else burned.(consumedAttestations := before.consumedAttestations + {q.evidence.value.id},
                                     grants := S.SpendGrant(before.grants, CrossingKey(q.rcv, q.assignment)))
  {
    s.ConsumeCrossing(q.crossing);
    if branch == Endorsed {
      if q.evidence.Some? {
        s.ConsumeAttestation(q.evidence.value.id);
      }
      s.DecrementGrantAt(q.rcv, q.assignment);
    }
  }

  /** The guards of a crossing up to the branch selection. */
  method CrossGuards(s: KernelState, q: CrossInput) returns (refusal: Option<KernelError>)
    requires s.Valid()
    ensures refusal == if q.src !in s.View().active || q.rcv !in s.View().active then Some(AgentInactive)
                       else if S.InFlight(s.View().pending, q.src) then Some(SourceInFlight)
                       else if q.crossing in s.View().consumedCrossings then Some(CrossingReplayed)
                       else None
  {
    var srcActive := SetContains(s.agentActive, q.src);
    if !srcActive {
      return Some(AgentInactive);
    }
    var rcvActive := SetContains(s.agentActive, q.rcv);
    if !rcvActive {
      return Some(AgentInactive);
    }
    var inFlight := ScanInFlight(s, q.src);
    if inFlight {
      return Some(SourceInFlight);
    }
    var replayed := SetContains(s.consumedCrossings, q.crossing);
    if replayed {
      return Some(CrossingReplayed);
    }
    return None;
  }

  /** A total choice over the evidence and the declared fallback. */
  method SelectBranch(s: KernelState, q: CrossInput) returns (branch: CrossBranch)
    requires s.Valid()
    ensures branch == S.BranchOf(s.View(), q)
  {
    var endorsed := EndorsedOk(s, q);
    if endorsed {
      return Endorsed;
    }
    match q.fallback
    case ReleaseUnendorsed => return Unendorsed;
    case FallbackFail => return BranchFail;
  }

  /** The effect of an admitted crossing. */
  method PerformCrossing(s: KernelState, q: CrossInput, branch: CrossBranch, holds: bool)
    requires s.Valid() && branch == S.BranchOf(s.View(), q)
    modifies s
    ensures s.Valid()
    ensures var before := old(s.View());
            var released := S.Release(before, q.rcv, S.ReleasedConfs(before, q), S.ReleasedIntegs(before, q), !holds);
            var next := released.(consumedCrossings := before.consumedCrossings + {q.crossing});
            s.View() == if branch != Endorsed then next
                        else next.(consumedAttestations := before.consumedAttestations + {q.evidence.value.id},
                                   grants := S.SpendGrant(before.grants, CrossingKey(q.rcv, q.assignment)))
  {
    ReleaseLabels(s, q, branch);
    SpendCrossing(s, q, branch);
    if !holds {
      s.DemoteAllOf(q.rcv);
    }
  }

  method CrossOutput(s: KernelState, bg: Background, q: CrossInput) returns (r: Result<Action, KernelError>)
    requires s.Valid()
    modifies s
    ensures s.Valid()
    ensures Reply(r, s.View()) == S.CrossStep(old(s.View()), bg, q)
    ensures r.Err? ==> s.View() == old(s.View())
  {
    var refusal := CrossGuards(s, q);
    if refusal.Some? {
      return Err(refusal.value);
    }
    var branch := SelectBranch(s, q);
    if branch == Endorsed {
      var bounded := CheckBounds(s, q);
      if !bounded {
        return Err(CrossingBoundViolated);
      }
    }
    var holds := CrossHolds(s, bg, q, branch);
    if !holds && bg.mode != Monitor {
      return Err(CrossingHoldFailed);
    }
    PerformCrossing(s, q, branch, holds);
    return Ok(CrossedOutput(q.src, q.rcv, q.crossing, branch, if holds then Permitted else MonitorBypassed));
  }

  // ---- Dispatch ----

  /** What a wire command means: its lists, as sets. */
  ghost function CommandOf(c: CommandV): CommandK {
    match c
    case BeginInvocation(agent, inv, chal, policy, egress, ah, authorized) =>
      Command.BeginInvocation(agent, inv, chal, PolicyOf(policy), AsSet(egress), ah, authorized)
    case RegisterTool(tool) => Command.RegisterTool(tool)
    case UnregisterTool(tool) => Command.UnregisterTool(tool)
    case Delegate(grantor, grantee) => Command.Delegate(grantor, grantee)
    case GrantCapability(parent, child, cap) => Command.GrantCapability(parent, child, cap)
    case GrantCrossing(grantor, agent, assignment, n) => Command.GrantCrossing(grantor, agent, assignment, n)
    case Revoke(parent, target) => Command.Revoke(parent, target)
    case CascadeRevoke(child, parent) => Command.CascadeRevoke(child, parent)
    case Ingest(agent, src, pconf, pinteg) => Command.Ingest(agent, src, pconf, pinteg)
    case AuthorizeInspected(inv, att) => Command.AuthorizeInspected(inv, att)
    case SettleInvocation(inv, outcome, att) => Command.SettleInvocation(inv, outcome, att)
    case CrossOutput(q) => Command.CrossOutput(q)
  }

  /** The three lists of an admission are collected into sets first. */
  method ApplyBegin(s: KernelState, bg: Background, a: AgentId, inv: InvocationId, chal: ChallengeId, policy: PolicyV,
                    egress: seq<EgressKind>, ah: ContentHash, authorized: bool) returns (r: Result<Action, KernelError>)
    requires s.Valid()
    modifies s
    ensures s.Valid()
    ensures Reply(r, s.View()) == S.BeginStep(old(s.View()), bg, a, inv, chal, PolicyOf(policy), AsSet(egress), ah, authorized)
    ensures r.Err? ==> s.View() == old(s.View())
  {
    var caps := Collect(policy.requiredCaps);
    var declared := Collect(policy.declaredEgress);
    var attested := Collect(egress);
    var snap := policy.(requiredCaps := caps, declaredEgress := declared);
    assert PolicyOf(snap) == PolicyOf(policy);
    r := BeginInvocation(s, bg, a, inv, chal, snap, attested, ah, authorized);
  }

  predicate IsTreeCommand(c: CommandV) {
    || c.RegisterTool? || c.UnregisterTool? || c.Delegate? || c.GrantCapability? || c.Revoke? || c.CascadeRevoke?
  }

  /** The commands on the tool registry and on the agent tree. */
  method ApplyTree(s: KernelState, bg: Background, c: CommandV) returns (r: Result<Action, KernelError>)
    requires s.Valid() && IsTreeCommand(c)
    modifies s
    ensures s.Valid()
    ensures Reply(r, s.View()) == S.Step(old(s.View()), bg, CommandOf(c))
    ensures r.Err? ==> s.View() == old(s.View())
  {
    match c
    case RegisterTool(tool) => r := RegisterTool(s, tool);
    case UnregisterTool(tool) => r := UnregisterTool(s, tool);
    case Delegate(grantor, grantee) => r := Delegate(s, bg, grantor, grantee);
    case GrantCapability(parent, child, cap) => r := GrantCapability(s, parent, child, cap);
    case Revoke(parent, target) => r := Revoke(s, bg, parent, target);
    case CascadeRevoke(child, parent) => r := CascadeRevoke(s, bg, child, parent);
  }

  /** Run one wire command. Neither the order nor the duplicates of a list can matter: the reply is a
      function of the represented state and of the command with its lists read as sets. */
  method Apply(s: KernelState, bg: Background, c: CommandV) returns (r: Result<Action, KernelError>)
    requires s.Valid()
    modifies s
    ensures s.Valid()
    ensures Reply(r, s.View()) == S.Step(old(s.View()), bg, CommandOf(c))
    ensures r.Err? ==> s.View() == old(s.View())
  {
    hide S.RegisterToolStep, S.UnregisterToolStep, S.DelegateStep, S.GrantCapabilityStep, S.GrantCrossingStep, S.RevokeStep, S.CascadeRevokeStep, S.IngestStep, S.BeginStep, S.AuthorizeStep, S.SettleStep, S.CrossStep, KernelState.View, KernelState.Valid;
    match c
    case RegisterTool(_) => r := ApplyTree(s, bg, c);
    case UnregisterTool(_) => r := ApplyTree(s, bg, c);
    case Delegate(_, _) => r := ApplyTree(s, bg, c);
    case GrantCapability(_, _, _) => r := ApplyTree(s, bg, c);
    case Revoke(_, _) => r := ApplyTree(s, bg, c);
    case CascadeRevoke(_, _) => r := ApplyTree(s, bg, c);
    case GrantCrossing(grantor, agent, assignment, n) => r := GrantCrossing(s, bg, grantor, agent, assignment, n);
    case Ingest(agent, src, pconf, pinteg) => r := Ingest(s, bg, agent, src, pconf, pinteg);
    case BeginInvocation(agent, inv, chal, policy, egress, ah, authorized) =>
      r := ApplyBegin(s, bg, agent, inv, chal, policy, egress, ah, authorized);
    case AuthorizeInspected(inv, att) => r := AuthorizeInspected(s, bg, inv, att);
    case SettleInvocation(inv, outcome, att) => r := SettleInvocation(s, inv, outcome, att);
    case CrossOutput(q) => r := CrossOutput(s, bg, q);
  }
}
