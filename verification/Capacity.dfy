/**
  The capacity profile of an instance, on the abstract state: how many members each collection may
  hold, how much text the state may retain, and what the preflight of a command demands. The main
  result is that the preflight is a sound bound: an accepted command never leaves the profile.
*/
module Capacity {
  import opened Types
  import opened Spec
  import opened Collections
  import opened Kernel
  import opened Transitions

  const MAX_OPAQUE_UTF8_BYTES: nat := 1_024
  const MAX_AGENTS: nat := 4_096
  const MAX_PARENT_OR_LABEL_KEYS: nat := 4_096
  const MAX_TOOLS: nat := 1_024
  const MAX_PENDING: nat := 4_096
  const MAX_CHALLENGES: nat := 4_096
  const MAX_CROSSING_GRANTS: nat := 16_384
  const MAX_CONSUMED_IDS: nat := 65_536
  const MAX_CONSUMED_ATTESTATIONS: nat := 65_536
  const MAX_CONSUMED_CROSSINGS: nat := 65_536
  const MAX_RETAINED_UTF8_BYTES: nat := 16 * 1024 * 1024
  const MAX_ACCEPTED_SEQUENCE: nat := 100_000
  const MAX_CAPABILITIES: nat := 15
  const MAX_EGRESS_KINDS: nat := 4
  const MAX_CONF_LEVELS: nat := 4
  const MAX_INTEG_LEVELS: nat := 4

  // ---- Text ----

  /** The bytes of a text; an oversized text costs more than the whole budget, so that a total within
      the budget says both that the bytes fit and that every single text does. */
  function Cost(t: Text): nat {
    if |t| <= MAX_OPAQUE_UTF8_BYTES then |t| else |t| + MAX_RETAINED_UTF8_BYTES + 1
  }

  function Costs(ts: seq<Text>): nat {
    if ts == [] then 0 else Costs(ts[..|ts| - 1]) + Cost(ts[|ts| - 1])
  }

  ghost function SetCost(s: set<Text>): nat {
    if s == {} then 0
    else
      var x :| x in s;
      Cost(x) + SetCost(s - {x})
  }

  ghost function MapCost<K, V>(m: map<K, V>, texts: (K, V) -> seq<Text>): nat
    decreases |m|
  {
    if m == map[] then 0
    else
      var k :| k in m;
      Costs(texts(k, m[k])) + MapCost(m - {k}, texts)
  }

  lemma {:induction false} SetCostPick(s: set<Text>, x: Text)
    requires x in s
    ensures SetCost(s) == Cost(x) + SetCost(s - {x})
  {
    var y :| y in s && SetCost(s) == Cost(y) + SetCost(s - {y});
    if y != x {
      SetCostPick(s - {y}, x);
      SetCostPick(s - {x}, y);
      assert s - {y} - {x} == s - {x} - {y};
    }
  }

  lemma {:induction false} SetCostLe(t: set<Text>, s: set<Text>)
    requires t <= s
    ensures SetCost(t) <= SetCost(s)
    decreases t
  {
    if t != {} {
      var x :| x in t;
      SetCostPick(t, x);
      SetCostPick(s, x);
      SetCostLe(t - {x}, s - {x});
    }
  }

  lemma SetCostAdd(s: set<Text>, x: Text)
    ensures SetCost(s + {x}) <= SetCost(s) + Cost(x)
  {
    SetCostPick(s + {x}, x);
    SetCostLe(s + {x} - {x}, s);
  }

  lemma {:induction false} MapCostPick<K, V>(m: map<K, V>, k: K, texts: (K, V) -> seq<Text>)
    requires k in m
    ensures MapCost(m, texts) == Costs(texts(k, m[k])) + MapCost(m - {k}, texts)
    decreases |m|
  {
    var h :| h in m && MapCost(m, texts) == Costs(texts(h, m[h])) + MapCost(m - {h}, texts);
    if h != k {
      MapCostPick(m - {h}, k, texts);
      MapCostPick(m - {k}, h, texts);
      assert m - {h} - {k} == m - {k} - {h};
    }
  }

  /** Dropping entries, or changing values in parts that carry no text, never costs more. */
  lemma {:induction false} MapCostLe<K, V, W>(t: map<K, V>, textsT: (K, V) -> seq<Text>, m: map<K, W>, texts: (K, W) -> seq<Text>)
    requires forall k | k in t :: k in m && textsT(k, t[k]) == texts(k, m[k])
    ensures MapCost(t, textsT) <= MapCost(m, texts)
    decreases |t|
  {
    if t != map[] {
      var k :| k in t;
      MapCostPick(t, k, textsT);
      MapCostPick(m, k, texts);
      MapCostLe(t - {k}, textsT, m - {k}, texts);
    }
  }

  lemma MapCostPut<K, V>(m: map<K, V>, k: K, v: V, texts: (K, V) -> seq<Text>)
    ensures MapCost(m[k := v], texts) <= MapCost(m, texts) + Costs(texts(k, v))
  {
    MapCostPick(m[k := v], k, texts);
    assert m[k := v] - {k} == m - {k};
    MapCostLe(m - {k}, texts, m, texts);
  }

  function ParentTexts(child: AgentId, parent: AgentId): seq<Text> {
    [child, parent]
  }

  function KeyTexts<V>(key: Text, v: V): seq<Text> {
    [key]
  }

  function PendingTexts<C, E>(inv: InvocationId, j: Pending<C, E>): seq<Text> {
    [inv, j.agent, j.policy.tool, j.policy.policyDigest]
    + (match j.admission case Inspected(id) => [id] case _ => [])
  }

  function ScopeTexts<C, E>(inv: InvocationId, sc: Scope<C, E>): seq<Text> {
    [inv, sc.challenge, sc.agent, sc.policy.tool, sc.policy.policyDigest, sc.argsHash]
  }

  function GrantTexts(key: CrossingKey, g: CrossingGrant): seq<Text> {
    [key.agent, key.assignment]
  }

  /** All the text a state retains. */
  ghost function TextCost(s: State): nat {
    SetCost(s.active) + MapCost(s.parent, ParentTexts) + LabelCost(s.caps) + LabelCost(s.taint) + LabelCost(s.integ)
    + MapCost(s.pending, PendingTexts) + MapCost(s.challenges, ScopeTexts)
    + SetCost(s.consumedIds) + SetCost(s.consumedAttestations) + SetCost(s.consumedCrossings)
    + MapCost(s.grants, GrantTexts) + SetCost(s.tools)
  }

  ghost function LabelCost<T>(m: map<AgentId, set<T>>): nat {
    MapCost(m, KeyTexts)
  }

  // ---- Shape ----

  ghost predicate PolicyShape(p: PolicyK) {
    |p.requiredCaps| <= MAX_CAPABILITIES && |p.declaredEgress| <= MAX_EGRESS_KINDS
  }

  /** The twelve collection bounds. */
  ghost predicate OuterShape(s: State) {
    && |s.active| <= MAX_AGENTS
    && |s.parent| <= MAX_PARENT_OR_LABEL_KEYS
    && |s.caps| <= MAX_PARENT_OR_LABEL_KEYS
    && |s.taint| <= MAX_PARENT_OR_LABEL_KEYS
    && |s.integ| <= MAX_PARENT_OR_LABEL_KEYS
    && |s.pending| <= MAX_PENDING
    && |s.challenges| <= MAX_CHALLENGES
    && |s.grants| <= MAX_CROSSING_GRANTS
    && |s.consumedIds| <= MAX_CONSUMED_IDS
    && |s.consumedAttestations| <= MAX_CONSUMED_ATTESTATIONS
    && |s.consumedCrossings| <= MAX_CONSUMED_CROSSINGS
    && |s.tools| <= MAX_TOOLS
  }

  ghost predicate SetsShape<T>(m: map<AgentId, set<T>>, maximum: nat) {
    forall a | a in m :: |m[a]| <= maximum
  }

  ghost predicate RecordShape(j: PendingK) {
    PolicyShape(j.policy) && |j.egress| <= MAX_EGRESS_KINDS
  }

  ghost predicate ScopeShape(sc: ScopeK) {
    PolicyShape(sc.policy) && |sc.egress| <= MAX_EGRESS_KINDS
  }

  ghost predicate RecordsShape(pending: map<InvocationId, PendingK>) {
    forall i | i in pending :: RecordShape(pending[i])
  }

  ghost predicate ScopesShape(challenges: map<InvocationId, ScopeK>) {
    forall i | i in challenges :: ScopeShape(challenges[i])
  }

  /** The bounds on the sets nested inside. */
  ghost predicate NestedShape(s: State) {
    && SetsShape(s.caps, MAX_CAPABILITIES)
    && SetsShape(s.taint, MAX_CONF_LEVELS)
    && SetsShape(s.integ, MAX_INTEG_LEVELS)
    && RecordsShape(s.pending)
    && ScopesShape(s.challenges)
  }

  /** The state is within the capacity profile. */
  ghost predicate StateOk(s: State) {
    OuterShape(s) && NestedShape(s) && TextCost(s) <= MAX_RETAINED_UTF8_BYTES
  }

  lemma FewCaps(s: set<CapKind>)
    ensures |s| <= MAX_CAPABILITIES
  {
    forall c | c in s ensures c in AsSet(ALL_CAPS) {
      assert ALL_CAPS[CapTag(c)] == c;
    }
    AtMost(ALL_CAPS);
    SubsetCardinality(s, AsSet(ALL_CAPS));
  }

  lemma FewEgress(s: set<EgressKind>)
    ensures |s| <= MAX_EGRESS_KINDS
  {
    var all := {NetworkExternal, NetworkInternal, FilesystemWrite, Ipc};
    forall x | x in s ensures x in all {
      match x
      case NetworkExternal =>
      case NetworkInternal =>
      case FilesystemWrite =>
      case Ipc =>
    }
    SubsetCardinality(s, all);
  }

  lemma FewConfs(s: set<ConfLevel>)
    ensures |s| <= MAX_CONF_LEVELS
  {
    var all := {Public, Internal, Sensitive, Restricted};
    forall x | x in s ensures x in all {
      match x
      case Public =>
      case Internal =>
      case Sensitive =>
      case Restricted =>
    }
    SubsetCardinality(s, all);
  }

  lemma FewIntegs(s: set<IntegLevel>)
    ensures |s| <= MAX_INTEG_LEVELS
  {
    var all := {Untrusted, Standard, Trusted, Attested};
    forall x | x in s ensures x in all {
      match x
      case Untrusted =>
      case Standard =>
      case Trusted =>
      case Attested =>
    }
    SubsetCardinality(s, all);
  }

  lemma {:induction false} SubsetCardinality<T>(s: set<T>, t: set<T>)
    requires s <= t
    ensures |s| <= |t|
  {
    if s != {} {
      var x :| x in s;
      SubsetCardinality(s - {x}, t - {x});
    }
  }

  /** Pigeonhole: a set over a vocabulary is never larger than the vocabulary, so the nested bounds hold
      of every state. */
  lemma NestedAlwaysFits(s: State)
    ensures NestedShape(s)
  {
    forall a | a in s.caps ensures |s.caps[a]| <= MAX_CAPABILITIES { FewCaps(s.caps[a]); }
    forall a | a in s.taint ensures |s.taint[a]| <= MAX_CONF_LEVELS { FewConfs(s.taint[a]); }
    forall a | a in s.integ ensures |s.integ[a]| <= MAX_INTEG_LEVELS { FewIntegs(s.integ[a]); }
    forall i | i in s.pending ensures RecordShape(s.pending[i])
    {
      FewCaps(s.pending[i].policy.requiredCaps);
      FewEgress(s.pending[i].policy.declaredEgress);
      FewEgress(s.pending[i].egress);
    }
    forall i | i in s.challenges ensures ScopeShape(s.challenges[i])
    {
      FewCaps(s.challenges[i].policy.requiredCaps);
      FewEgress(s.challenges[i].policy.declaredEgress);
      FewEgress(s.challenges[i].egress);
    }
  }

  /** The profile in numbers; the bounds on nested sets add nothing. */
  lemma ProfileIs(s: State)
    ensures StateOk(s)
       <==> && |s.active| <= 4096 && |s.parent| <= 4096 && |s.caps| <= 4096 && |s.taint| <= 4096 && |s.integ| <= 4096
            && |s.pending| <= 4096 && |s.challenges| <= 4096
            && |s.grants| <= 16384
            && |s.consumedIds| <= 65536 && |s.consumedAttestations| <= 65536 && |s.consumedCrossings| <= 65536
            && |s.tools| <= 1024
            && TextCost(s) <= 16777216
  {
    hide NestedShape, TextCost;
    NestedAlwaysFits(s);
  }

  // ---- What a preflight demands ----

  predicate SmallTexts(ts: seq<Text>) {
    forall t | t in ts :: |t| <= MAX_OPAQUE_UTF8_BYTES
  }

  /** Every text is small and no list is longer than its vocabulary. */
  predicate CommandFits(c: CommandV) {
    && SmallTexts(CommandTexts(c))
    && (c.BeginInvocation? ==>
          && |c.policy.requiredCaps| <= MAX_CAPABILITIES
          && |c.policy.declaredEgress| <= MAX_EGRESS_KINDS
          && |c.egress| <= MAX_EGRESS_KINDS)
  }

  /** The keys a map holds once `a` is bound. */
  ghost function KeysWith<V>(m: map<AgentId, V>, a: AgentId): nat {
    |m| + (if a in m then 0 else 1)
  }

  /** The elements at `a` once `x` is inserted there. */
  ghost function SizeWith<T>(m: map<AgentId, set<T>>, a: AgentId, x: T): nat {
    |Of(m, a)| + (if x in Of(m, a) then 0 else 1)
  }

  /** The elements at `rcv` once those at `src` are added: never fewer than one more than it holds. */
  ghost function SizeWithAll<T>(m: map<AgentId, set<T>>, src: AgentId, rcv: AgentId): nat {
    |Of(m, rcv)| + (if Of(m, src) <= Of(m, rcv) then 1 else |Of(m, src) - Of(m, rcv)|)
  }

  /** The collections a command may grow have room for what it may add. */
  ghost predicate PostShape(s: State, c: CommandV) {
    match c
    case RegisterTool(_) => |s.tools| + 1 <= MAX_TOOLS
    case UnregisterTool(_) => true
    case Revoke(_, _) => true
    case CascadeRevoke(_, _) => true
    case Delegate(_, _) => |s.active| + 1 <= MAX_AGENTS && |s.parent| + 1 <= MAX_PARENT_OR_LABEL_KEYS
    case GrantCapability(_, child, cap) =>
      KeysWith(s.caps, child) <= MAX_PARENT_OR_LABEL_KEYS && SizeWith(s.caps, child, cap) <= MAX_CAPABILITIES
    case GrantCrossing(_, _, _, _) => |s.grants| + 1 <= MAX_CROSSING_GRANTS
    case Ingest(agent, _, pconf, pinteg) =>
      && LabelKeysFit(s, agent)
      && SizeWith(s.taint, agent, pconf) <= MAX_CONF_LEVELS && SizeWith(s.integ, agent, pinteg) <= MAX_INTEG_LEVELS
    case BeginInvocation(_, _, _, _, _, _, _) =>
      && |s.pending| + 1 <= MAX_PENDING
      && |s.challenges| + 1 <= MAX_CHALLENGES
      && |s.consumedIds| + 1 <= MAX_CONSUMED_IDS
    case AuthorizeInspected(_, _) =>
      |s.pending| + 1 <= MAX_PENDING && |s.consumedAttestations| + 1 <= MAX_CONSUMED_ATTESTATIONS
    case SettleInvocation(inv, _, res) => SettleShape(s, inv, res.Some?)
    case CrossOutput(q) => CrossShape(s, q)
  }

  ghost predicate LabelKeysFit(s: State, a: AgentId) {
    KeysWith(s.taint, a) <= MAX_PARENT_OR_LABEL_KEYS && KeysWith(s.integ, a) <= MAX_PARENT_OR_LABEL_KEYS
  }

  ghost predicate SettleShape(s: State, inv: InvocationId, resolved: bool) {
    && (resolved ==> |s.consumedAttestations| + 1 <= MAX_CONSUMED_ATTESTATIONS)
    && (inv in s.pending ==> LabelKeysFit(s, s.pending[inv].agent))
  }

  ghost predicate CrossShape(s: State, q: CrossInput) {
    && |s.consumedCrossings| + 1 <= MAX_CONSUMED_CROSSINGS
    && (q.evidence.Some? ==> |s.consumedAttestations| + 1 <= MAX_CONSUMED_ATTESTATIONS)
    && LabelKeysFit(s, q.rcv)
    && SizeWithAll(s.taint, q.src, q.rcv) <= MAX_CONF_LEVELS
    && SizeWithAll(s.integ, q.src, q.rcv) <= MAX_INTEG_LEVELS
  }

  /** The text a command may add. */
  ghost function PostTexts(s: State, c: CommandV): seq<Text> {
    match c
    case RegisterTool(tool) => [tool]
    case UnregisterTool(_) => []
    case Revoke(_, _) => []
    case CascadeRevoke(_, _) => []
    case Delegate(grantor, grantee) => [grantee, grantee, grantor]
    case GrantCapability(_, child, _) => if child in s.caps then [] else [child]
    case GrantCrossing(_, agent, assignment, _) => [agent, assignment]
    case Ingest(agent, _, _, _) => (if agent in s.taint then [] else [agent]) + (if agent in s.integ then [] else [agent])
    case BeginInvocation(agent, inv, chal, policy, _, ah, _) =>
      [inv, inv, agent, chal, policy.tool, policy.policyDigest, ah]
    case AuthorizeInspected(inv, att) =>
      [att.id, att.id]
      + (if inv in s.challenges
         then [inv, s.challenges[inv].agent, s.challenges[inv].policy.tool, s.challenges[inv].policy.policyDigest]
         else [])
    case SettleInvocation(inv, _, res) =>
      (if inv in s.pending then [s.pending[inv].agent, s.pending[inv].agent] else [])
      + (if res.Some? then [res.value.id] else [])
    case CrossOutput(q) => [q.crossing, q.rcv, q.rcv] + (if q.evidence.Some? then [q.evidence.value.id] else [])
  }

  ghost predicate PostFits(s: State, c: CommandV) {
    PostShape(s, c) && TextCost(s) + Costs(PostTexts(s, c)) <= MAX_RETAINED_UTF8_BYTES
  }

  ghost predicate SequenceLeft(sequence: U64) {
    sequence as int + 1 <= MAX_ACCEPTED_SEQUENCE
  }

  /** The preflight of a command: a spent sequence is reported before any excess. */
  ghost function Preflight(s: State, sequence: U64, c: CommandV): Check {
    if !SequenceLeft(sequence) then Fail(SequenceExhausted)
    else if StateOk(s) && CommandFits(c) && PostFits(s, c) then Pass
    else Fail(CapacityExceeded)
  }

  // ---- Growth of one collection ----

  lemma Submap<K, V>(t: map<K, V>, m: map<K, V>, texts: (K, V) -> seq<Text>)
    requires forall k | k in t :: k in m && t[k] == m[k]
    ensures |t| <= |m| && MapCost(t, texts) <= MapCost(m, texts)
  {
    SubsetCardinality(t.Keys, m.Keys);
    MapCostLe(t, texts, m, texts);
  }

  lemma Put<K, V>(m: map<K, V>, k: K, v: V, texts: (K, V) -> seq<Text>)
    ensures |m[k := v]| <= |m| + 1
    ensures k in m ==> |m[k := v]| == |m|
    ensures MapCost(m[k := v], texts) <= MapCost(m, texts) + Costs(texts(k, v))
    ensures k in m && texts(k, v) == texts(k, m[k]) ==> MapCost(m[k := v], texts) <= MapCost(m, texts)
  {
    assert m[k := v].Keys == m.Keys + {k};
    MapCostPut(m, k, v, texts);
    if k in m && texts(k, v) == texts(k, m[k]) {
      assert m.Keys + {k} == m.Keys;
      MapCostLe(m[k := v], texts, m, texts);
    }
    if k in m {
      assert m.Keys + {k} == m.Keys;
    }
  }

  lemma Remove<K, V>(m: map<K, V>, k: K, texts: (K, V) -> seq<Text>)
    ensures |m - {k}| <= |m| && MapCost(m - {k}, texts) <= MapCost(m, texts)
  {
    Submap(m - {k}, m, texts);
  }

  lemma AddText(s: set<Text>, x: Text)
    ensures |s + {x}| <= |s| + 1 && SetCost(s + {x}) <= SetCost(s) + Cost(x)
  {
    SetCostAdd(s, x);
  }

  lemma DropText(s: set<Text>, x: Text)
    ensures |s - {x}| <= |s| && SetCost(s - {x}) <= SetCost(s)
  {
    SubsetCardinality(s - {x}, s);
    SetCostLe(s - {x}, s);
  }

  /** Inserting elements at `a` binds at most the key `a`. */
  lemma ExtendGrows<T>(m: map<AgentId, set<T>>, a: AgentId, levels: set<T>)
    ensures |Extend(m, a, levels)| <= KeysWith(m, a)
    ensures LabelCost(Extend(m, a, levels)) <= LabelCost(m) + (if a in m then 0 else Cost(a))
  {
    var v := Of(m, a) + levels;
    Put(m, a, v, KeyTexts);
    OneText(a);
    assert KeyTexts(a, v) == [a];
    if a in m {
      assert KeyTexts(a, m[a]) == [a];
    }
  }

  lemma OneText(t: Text)
    ensures Costs([t]) == Cost(t)
  {
    assert [t][..0] == [];
  }

  lemma {:induction false} CostsAppend(ts: seq<Text>, us: seq<Text>)
    ensures Costs(ts + us) == Costs(ts) + Costs(us)
  {
    if us == [] {
      assert ts + us == ts;
    } else {
      var n := |us| - 1;
      assert (ts + us)[..|ts + us| - 1] == ts + us[..n];
      CostsAppend(ts, us[..n]);
    }
  }

  lemma CostsCons(t: Text, ts: seq<Text>)
    ensures Costs([t] + ts) == Cost(t) + Costs(ts)
  {
    CostsAppend([t], ts);
    OneText(t);
  }

  // ---- The commands ----

  /** Clearing an agent only sheds. */
  lemma ClearSheds(s: State, a: AgentId)
    ensures var n := Clear(s, a);
            && |n.active| <= |s.active| && SetCost(n.active) <= SetCost(s.active)
            && |n.parent| <= |s.parent| && MapCost(n.parent, ParentTexts) <= MapCost(s.parent, ParentTexts)
            && |n.caps| <= |s.caps| && LabelCost(n.caps) <= LabelCost(s.caps)
            && |n.taint| <= |s.taint| && LabelCost(n.taint) <= LabelCost(s.taint)
            && |n.integ| <= |s.integ| && LabelCost(n.integ) <= LabelCost(s.integ)
            && |n.pending| <= |s.pending| && MapCost(n.pending, PendingTexts) <= MapCost(s.pending, PendingTexts)
            && |n.challenges| <= |s.challenges| && MapCost(n.challenges, ScopeTexts) <= MapCost(s.challenges, ScopeTexts)
            && |n.grants| <= |s.grants| && MapCost(n.grants, GrantTexts) <= MapCost(s.grants, GrantTexts)
  {
    DropText(s.active, a);
    Remove(s.parent, a, ParentTexts);
    Remove(s.caps, a, KeyTexts);
    Remove(s.taint, a, KeyTexts);
    Remove(s.integ, a, KeyTexts);
    Submap(DropPending(s.pending, a), s.pending, PendingTexts);
    Submap(DropChallenges(s.challenges, a), s.challenges, ScopeTexts);
    Submap(DropGrants(s.grants, a), s.grants, GrantTexts);
  }

  /** Demotion keeps every record's text. */
  lemma DemoteKeepsText(pending: map<InvocationId, PendingK>, a: AgentId)
    ensures |Demote(pending, a)| == |pending| && MapCost(Demote(pending, a), PendingTexts) <= MapCost(pending, PendingTexts)
  {
    assert Demote(pending, a).Keys == pending.Keys;
    MapCostLe(Demote(pending, a), PendingTexts, pending, PendingTexts);
  }

  /** `n` has a fitting shape and retains at most `extra` more than `s`. */
  ghost predicate Within(s: State, n: State, extra: nat) {
    OuterShape(n) && TextCost(n) <= TextCost(s) + extra
  }

  // One collection at a time: what replaces it costs at most `d` more.

  lemma PendingFit(s: State, e: State, extra: nat, x: map<InvocationId, PendingK>, d: nat)
    requires Within(s, e, extra) && |x| <= MAX_PENDING && MapCost(x, PendingTexts) <= MapCost(e.pending, PendingTexts) + d
    ensures Within(s, e.(pending := x), extra + d)
  {
  }

  lemma ChallengesFit(s: State, e: State, extra: nat, x: map<InvocationId, ScopeK>, d: nat)
    requires Within(s, e, extra) && |x| <= MAX_CHALLENGES && MapCost(x, ScopeTexts) <= MapCost(e.challenges, ScopeTexts) + d
    ensures Within(s, e.(challenges := x), extra + d)
  {
  }

  lemma IdsFit(s: State, e: State, extra: nat, x: set<InvocationId>, d: nat)
    requires Within(s, e, extra) && |x| <= MAX_CONSUMED_IDS && SetCost(x) <= SetCost(e.consumedIds) + d
    ensures Within(s, e.(consumedIds := x), extra + d)
  {
  }

  lemma AttestationsFit(s: State, e: State, extra: nat, x: set<AttestationId>, d: nat)
    requires Within(s, e, extra) && |x| <= MAX_CONSUMED_ATTESTATIONS && SetCost(x) <= SetCost(e.consumedAttestations) + d
    ensures Within(s, e.(consumedAttestations := x), extra + d)
  {
  }

  lemma CrossingsFit(s: State, e: State, extra: nat, x: set<CrossingId>, d: nat)
    requires Within(s, e, extra) && |x| <= MAX_CONSUMED_CROSSINGS && SetCost(x) <= SetCost(e.consumedCrossings) + d
    ensures Within(s, e.(consumedCrossings := x), extra + d)
  {
  }

  lemma GrantsFit(s: State, e: State, extra: nat, x: map<CrossingKey, CrossingGrant>, d: nat)
    requires Within(s, e, extra) && |x| <= MAX_CROSSING_GRANTS && MapCost(x, GrantTexts) <= MapCost(e.grants, GrantTexts) + d
    ensures Within(s, e.(grants := x), extra + d)
  {
  }

  lemma RegisterFits(s: State, tool: ToolId)
    requires OuterShape(s) && PostShape(s, RegisterTool(tool)) && RegisterToolStep(s, tool).Accepted?
    ensures Within(s, RegisterToolStep(s, tool).next, Costs([tool]))
  {
    hide MapCost, SetCost;
    AddText(s.tools, tool);
    OneText(tool);
  }

  lemma UnregisterFits(s: State, tool: ToolId)
    requires OuterShape(s) && UnregisterToolStep(s, tool).Accepted?
    ensures Within(s, UnregisterToolStep(s, tool).next, 0)
  {
    hide MapCost, SetCost, Costs, ToolInUseBy;
    DropText(s.tools, tool);
  }

  lemma ClearFits(s: State, a: AgentId)
    requires OuterShape(s)
    ensures Within(s, Clear(s, a), 0)
  {
    hide MapCost, SetCost, Costs, DropPending, DropChallenges, DropGrants;
    ClearSheds(s, a);
  }

  lemma RevokeFits(s: State, bg: Background, parent: AgentId, target: AgentId)
    requires OuterShape(s) && RevokeStep(s, bg, parent, target).Accepted?
    ensures Within(s, RevokeStep(s, bg, parent, target).next, 0)
  {
    hide MapCost, SetCost, Costs, OuterShape, TextCost, Clear;
    ClearFits(s, target);
  }

  lemma CascadeRevokeFits(s: State, bg: Background, child: AgentId, parent: AgentId)
    requires OuterShape(s) && CascadeRevokeStep(s, bg, child, parent).Accepted?
    ensures Within(s, CascadeRevokeStep(s, bg, child, parent).next, 0)
  {
    hide MapCost, SetCost, Costs, OuterShape, TextCost, Clear;
    ClearFits(s, child);
  }

  /** The tree a delegation leaves. */
  lemma DelegateTree(parent: map<AgentId, AgentId>, kept: map<AgentId, AgentId>, grantor: AgentId, grantee: AgentId)
    requires kept == map c | c in parent && c != grantee && parent[c] != grantee :: parent[c]
    ensures |kept[grantee := grantor]| <= |parent| + 1
    ensures MapCost(kept[grantee := grantor], ParentTexts) <= MapCost(parent, ParentTexts) + Costs([grantee, grantor])
  {
    Submap(kept, parent, ParentTexts);
    Put(kept, grantee, grantor, ParentTexts);
  }

  /** Clearing everything but the tree. */
  ghost function Emptied(s: State, a: AgentId): State {
    Clear(s, a).(active := s.active, parent := s.parent)
  }

  lemma EmptiedFits(s: State, a: AgentId)
    requires OuterShape(s)
    ensures Within(s, Emptied(s, a), 0)
  {
    ClearSheds(s, a);
  }

  /** Replacing the active set and the tree changes only their share. */
  lemma RetreeFits(s: State, e: State, active: set<AgentId>, parent: map<AgentId, AgentId>, da: nat, dp: nat)
    requires Within(s, e, 0)
    requires |active| <= MAX_AGENTS && |parent| <= MAX_PARENT_OR_LABEL_KEYS
    requires SetCost(active) <= SetCost(e.active) + da
    requires MapCost(parent, ParentTexts) <= MapCost(e.parent, ParentTexts) + dp
    ensures Within(s, e.(active := active, parent := parent), da + dp)
  {
  }

  lemma DelegateFits(s: State, bg: Background, grantor: AgentId, grantee: AgentId)
    requires OuterShape(s) && PostShape(s, Command.Delegate(grantor, grantee))
    requires DelegateStep(s, bg, grantor, grantee).Accepted?
    ensures Within(s, DelegateStep(s, bg, grantor, grantee).next, Costs([grantee, grantee, grantor]))
  {
    hide MapCost, SetCost, Costs, OuterShape, TextCost, IsParent;
    EmptiedFits(s, grantee);
    var kept := map c | c in s.parent && c != grantee && s.parent[c] != grantee :: s.parent[c];
    AdoptFits(s, Emptied(s, grantee), kept, grantor, grantee);
  }

  lemma AdoptFits(s: State, e: State, kept: map<AgentId, AgentId>, grantor: AgentId, grantee: AgentId)
    requires Within(s, e, 0) && e.active == s.active && e.parent == s.parent
    requires PostShape(s, Command.Delegate(grantor, grantee))
    requires kept == map c | c in s.parent && c != grantee && s.parent[c] != grantee :: s.parent[c]
    ensures Within(s, e.(active := s.active + {grantee}, parent := kept[grantee := grantor]), Costs([grantee, grantee, grantor]))
  {
    hide MapCost, SetCost, Costs, OuterShape, TextCost;
    AddText(s.active, grantee);
    DelegateTree(s.parent, kept, grantor, grantee);
    assert [grantee, grantee, grantor] == [grantee] + [grantee, grantor];
    CostsCons(grantee, [grantee, grantor]);
    RetreeFits(s, e, s.active + {grantee}, kept[grantee := grantor], Cost(grantee), Costs([grantee, grantor]));
  }

  lemma GrantCapabilityFits(s: State, parent: AgentId, child: AgentId, cap: CapKind)
    requires OuterShape(s) && PostShape(s, Command.GrantCapability(parent, child, cap))
    requires GrantCapabilityStep(s, parent, child, cap).Accepted?
    ensures Within(s, GrantCapabilityStep(s, parent, child, cap).next,
                   Costs(PostTexts(s, Command.GrantCapability(parent, child, cap))))
  {
    hide MapCost, SetCost, Costs, Extend;
    ExtendGrows(s.caps, child, {cap});
    OneText(child);
  }

  lemma GrantCrossingFits(s: State, bg: Background, grantor: AgentId, agent: AgentId, assignment: AssignmentDigest, n: U32)
    requires OuterShape(s) && PostShape(s, Command.GrantCrossing(grantor, agent, assignment, n))
    requires GrantCrossingStep(s, bg, grantor, agent, assignment, n).Accepted?
    ensures Within(s, GrantCrossingStep(s, bg, grantor, agent, assignment, n).next, Costs([agent, assignment]))
  {
    hide MapCost, SetCost, Costs;
    Put(s.grants, CrossingKey(agent, assignment), CrossingGrant(n, n), GrantTexts);
  }

  /** Releasing labels and perhaps demoting adds at most the two label keys. */
  lemma ReleaseFits(s: State, a: AgentId, confs: set<ConfLevel>, integs: set<IntegLevel>, bypassed: bool)
    requires OuterShape(s)
    requires LabelKeysFit(s, a)
    ensures Within(s, Release(s, a, confs, integs, bypassed),
                   (if a in s.taint then 0 else Cost(a)) + (if a in s.integ then 0 else Cost(a)))
  {
    hide MapCost, SetCost, Costs, Extend, Demote;
    ExtendGrows(s.taint, a, confs);
    ExtendGrows(s.integ, a, integs);
    DemoteKeepsText(s.pending, a);
  }

  lemma IngestFits(s: State, bg: Background, a: AgentId, src: Option<AgentId>, pconf: ConfLevel, pinteg: IntegLevel)
    requires OuterShape(s) && PostShape(s, Command.Ingest(a, src, pconf, pinteg))
    requires IngestStep(s, bg, a, src, pconf, pinteg).Accepted?
    ensures Within(s, IngestStep(s, bg, a, src, pconf, pinteg).next, Costs(PostTexts(s, Command.Ingest(a, src, pconf, pinteg))))
  {
    hide MapCost, SetCost, Costs, OuterShape, TextCost, Release, Holds;
    ReleaseFits(s, a, {pconf}, {pinteg}, !Holds(s.pending, bg, a, {pconf}, {pinteg}));
    OneText(a);
    CostsAppend(if a in s.taint then [] else [a], if a in s.integ then [] else [a]);
  }

  lemma BeginTexts(a: AgentId, inv: InvocationId, chal: ChallengeId, p: PolicyK, ah: ContentHash)
    ensures var all := Costs([inv, inv, a, chal, p.tool, p.policyDigest, ah]);
            && all == Cost(inv) + Costs([inv, chal, a, p.tool, p.policyDigest, ah])
            && Cost(inv) + Costs([inv, a, p.tool, p.policyDigest]) <= all
  {
    var five := [a, chal, p.tool, p.policyDigest, ah];
    assert [inv, inv, a, chal, p.tool, p.policyDigest, ah] == [inv] + ([inv] + ([a] + ([chal] + [p.tool, p.policyDigest, ah])));
    assert [inv, chal, a, p.tool, p.policyDigest, ah] == [inv] + ([chal] + ([a] + [p.tool, p.policyDigest, ah]));
    assert [inv, a, p.tool, p.policyDigest] == [inv] + ([a] + [p.tool, p.policyDigest]);
    assert [p.tool, p.policyDigest, ah] == [p.tool, p.policyDigest] + [ah];
    CostsAppend([p.tool, p.policyDigest], [ah]);
    CostsCons(chal, [p.tool, p.policyDigest, ah]);
    CostsCons(a, [chal] + [p.tool, p.policyDigest, ah]);
    CostsCons(inv, [a] + ([chal] + [p.tool, p.policyDigest, ah]));
    CostsCons(inv, [inv] + ([a] + ([chal] + [p.tool, p.policyDigest, ah])));
    CostsCons(a, [p.tool, p.policyDigest, ah]);
    CostsCons(chal, [a] + [p.tool, p.policyDigest, ah]);
    CostsCons(inv, [chal] + ([a] + [p.tool, p.policyDigest, ah]));
    CostsCons(a, [p.tool, p.policyDigest]);
    CostsCons(inv, [a] + [p.tool, p.policyDigest]);
  }

  /** Either arm adds one record or one challenge, and burns the id. */
  lemma BeginNextFits(s: State, bg: Background, a: AgentId, inv: InvocationId, chal: ChallengeId, p: PolicyK,
                      egress: set<EgressKind>, ah: ContentHash, authorized: bool, verdict: Verdict)
    requires OuterShape(s)
    requires |s.pending| + 1 <= MAX_PENDING && |s.challenges| + 1 <= MAX_CHALLENGES && |s.consumedIds| + 1 <= MAX_CONSUMED_IDS
    ensures Within(s, BeginNext(s, bg, a, inv, chal, p, egress, ah, authorized, verdict),
                   Costs([inv, inv, a, chal, p.tool, p.policyDigest, ah]))
  {
    var burned := s.(consumedIds := s.consumedIds + {inv});
    BurnFits(s, inv);
    BeginTexts(a, inv, chal, p, ah);
    if verdict == Allow {
      RecordFits(s, burned, inv, Pending(a, p, egress, Plain, Permitted, authorized, false), Cost(inv));
    } else if bg.mode == Monitor {
      RecordFits(s, burned, inv, Pending(a, p, egress, Bypassed, MonitorBypassed, authorized, false), Cost(inv));
    } else {
      ChallengeFits(s, burned, inv, Scope(chal, a, p, egress, ah, authorized), Cost(inv));
    }
  }

  lemma BurnFits(s: State, inv: InvocationId)
    requires OuterShape(s) && |s.consumedIds| + 1 <= MAX_CONSUMED_IDS
    ensures Within(s, s.(consumedIds := s.consumedIds + {inv}), Cost(inv))
  {
    AddText(s.consumedIds, inv);
    IdsFit(s, s, 0, s.consumedIds + {inv}, Cost(inv));
  }

  lemma RecordFits(s: State, e: State, inv: InvocationId, j: PendingK, extra: nat)
    requires Within(s, e, extra) && |e.pending| + 1 <= MAX_PENDING && !j.admission.Inspected?
    ensures Within(s, e.(pending := e.pending[inv := j]), extra + Costs([inv, j.agent, j.policy.tool, j.policy.policyDigest]))
  {
    PutRecord(e.pending, inv, j);
    PendingFit(s, e, extra, e.pending[inv := j], Costs([inv, j.agent, j.policy.tool, j.policy.policyDigest]));
  }

  lemma ChallengeFits(s: State, e: State, inv: InvocationId, sc: ScopeK, extra: nat)
    requires Within(s, e, extra) && |e.challenges| + 1 <= MAX_CHALLENGES
    ensures Within(s, e.(challenges := e.challenges[inv := sc]),
                   extra + Costs([inv, sc.challenge, sc.agent, sc.policy.tool, sc.policy.policyDigest, sc.argsHash]))
  {
    Put(e.challenges, inv, sc, ScopeTexts);
    ChallengesFit(s, e, extra, e.challenges[inv := sc],
                  Costs([inv, sc.challenge, sc.agent, sc.policy.tool, sc.policy.policyDigest, sc.argsHash]));
  }

  lemma PutRecord(pending: map<InvocationId, PendingK>, inv: InvocationId, j: PendingK)
    requires !j.admission.Inspected?
    ensures |pending[inv := j]| <= |pending| + 1
    ensures MapCost(pending[inv := j], PendingTexts)
         <= MapCost(pending, PendingTexts) + Costs([inv, j.agent, j.policy.tool, j.policy.policyDigest])
  {
    Put(pending, inv, j, PendingTexts);
    assert PendingTexts(inv, j) == [inv, j.agent, j.policy.tool, j.policy.policyDigest];
  }

  lemma BeginFits(s: State, bg: Background, a: AgentId, inv: InvocationId, chal: ChallengeId, p: PolicyK,
                  egress: set<EgressKind>, ah: ContentHash, authorized: bool)
    requires OuterShape(s)
    requires |s.pending| + 1 <= MAX_PENDING && |s.challenges| + 1 <= MAX_CHALLENGES && |s.consumedIds| + 1 <= MAX_CONSUMED_IDS
    requires BeginStep(s, bg, a, inv, chal, p, egress, ah, authorized).Accepted?
    ensures Within(s, BeginStep(s, bg, a, inv, chal, p, egress, ah, authorized).next,
                   Costs([inv, inv, a, chal, p.tool, p.policyDigest, ah]))
  {
    hide MapCost, SetCost, Costs, OuterShape, TextCost, BeginNext, VerdictOf, DenialOf;
    BeginNextFits(s, bg, a, inv, chal, p, egress, ah, authorized, VerdictOf(s, bg, a, p, egress, authorized));
  }

  lemma AuthorizeFits(s: State, bg: Background, inv: InvocationId, att: InspectionAttestation)
    requires OuterShape(s) && PostShape(s, Command.AuthorizeInspected(inv, att)) && AuthorizeStep(s, bg, inv, att).Accepted?
    ensures Within(s, AuthorizeStep(s, bg, inv, att).next, Costs(PostTexts(s, Command.AuthorizeInspected(inv, att))))
  {
    hide MapCost, SetCost, Costs, TextCost, Spec.AuthorizeAdmits;
    var sc := s.challenges[inv];
    var n := AuthorizeStep(s, bg, inv, att).next;
    var texts := [inv, sc.agent, sc.policy.tool, sc.policy.policyDigest];
    AdmittedRecord(s, sc, inv, att.id, n.pending);
    PendingFit(s, s, 0, n.pending, Costs(texts) + Cost(att.id));
    Remove(s.challenges, inv, ScopeTexts);
    ChallengesFit(s, s.(pending := n.pending), Costs(texts) + Cost(att.id), s.challenges - {inv}, 0);
    SpendFits(s, s.(pending := n.pending, challenges := s.challenges - {inv}), Costs(texts) + Cost(att.id), att.id);
    assert n == s.(pending := n.pending, challenges := s.challenges - {inv},
                   consumedAttestations := s.consumedAttestations + {att.id});
    CostsAppend([att.id, att.id], texts);
    SettleTexts(att.id, None);
    assert [att.id, att.id] + [] == [att.id, att.id];
  }

  lemma AdmittedRecord(s: State, sc: ScopeK, inv: InvocationId, id: AttestationId, n: map<InvocationId, PendingK>)
    requires |s.pending| + 1 <= MAX_PENDING
    requires n == s.pending
          || n == s.pending[inv := Pending(sc.agent, sc.policy, sc.egress, Inspected(id), Permitted, sc.authorized, false)]
    ensures |n| <= MAX_PENDING
    ensures MapCost(n, PendingTexts)
         <= MapCost(s.pending, PendingTexts) + Costs([inv, sc.agent, sc.policy.tool, sc.policy.policyDigest]) + Cost(id)
  {
    var record := Pending(sc.agent, sc.policy, sc.egress, Inspected(id), Permitted, sc.authorized, false);
    var texts := [inv, sc.agent, sc.policy.tool, sc.policy.policyDigest];
    Put(s.pending, inv, record, PendingTexts);
    assert PendingTexts(inv, record) == texts + [id];
    CostsAppend(texts, [id]);
    OneText(id);
  }

  /** A closed or quarantined record adds no text, nor does demoting its siblings. */
  lemma SettledRecords(pending: map<InvocationId, PendingK>, inv: InvocationId, outcome: Outcome, n: map<InvocationId, PendingK>)
    requires inv in pending
    requires var j := pending[inv];
             var settled := if outcome == Ambiguous then pending[inv := j.(quarantined := true)] else pending - {inv};
             n == settled || n == Demote(settled, j.agent)
    ensures |n| <= |pending| && MapCost(n, PendingTexts) <= MapCost(pending, PendingTexts)
  {
    var j := pending[inv];
    if outcome == Ambiguous {
      assert PendingTexts(inv, j.(quarantined := true)) == PendingTexts(inv, j);
      Put(pending, inv, j.(quarantined := true), PendingTexts);
      DemoteKeepsText(pending[inv := j.(quarantined := true)], j.agent);
    } else {
      Remove(pending, inv, PendingTexts);
      DemoteKeepsText(pending - {inv}, j.agent);
    }
  }

  lemma SpendFits(s: State, e: State, extra: nat, id: AttestationId)
    requires Within(s, e, extra) && |e.consumedAttestations| + 1 <= MAX_CONSUMED_ATTESTATIONS
    ensures Within(s, e.(consumedAttestations := e.consumedAttestations + {id}), extra + Cost(id))
  {
    AddText(e.consumedAttestations, id);
    AttestationsFit(s, e, extra, e.consumedAttestations + {id}, Cost(id));
  }

  /** The absorbed pair, the records left, and the spent resolution. */
  lemma SettleEffectFits(s: State, e: State, a: AgentId, n: map<InvocationId, PendingK>, res: Option<ResolutionAttestation>)
    requires Within(s, e, 2 * Cost(a)) && e.consumedAttestations == s.consumedAttestations
    requires |n| <= MAX_PENDING && MapCost(n, PendingTexts) <= MapCost(e.pending, PendingTexts)
    requires res.Some? ==> |s.consumedAttestations| + 1 <= MAX_CONSUMED_ATTESTATIONS
    ensures Within(s, e.(pending := n, consumedAttestations := s.consumedAttestations + (if res.Some? then {res.value.id} else {})),
                   2 * Cost(a) + (if res.Some? then Cost(res.value.id) else 0))
  {
    hide MapCost, SetCost, Costs, OuterShape, TextCost;
    PendingFit(s, e, 2 * Cost(a), n, 0);
    if res.Some? {
      SpendFits(s, e.(pending := n), 2 * Cost(a), res.value.id);
    } else {
      assert s.consumedAttestations + {} == s.consumedAttestations;
    }
  }

  /** The labels a settlement absorbs, before its record is closed. */
  ghost function Absorbed(s: State, j: PendingK, outcome: Outcome): State {
    if outcome == Ambiguous then s else Release(s, j.agent, {j.policy.outputConf}, {j.policy.outputInteg}, false)
  }

  lemma SettleNext(s: State, inv: InvocationId, outcome: Outcome, res: Option<ResolutionAttestation>)
    requires SettleStep(s, inv, outcome, res).Accepted?
    ensures var n := SettleStep(s, inv, outcome, res).next;
            && inv in s.pending
            && n == Absorbed(s, s.pending[inv], outcome).(
                      pending := n.pending,
                      consumedAttestations := s.consumedAttestations + (if res.Some? then {res.value.id} else {}))
  {
  }

  lemma AbsorbedFits(s: State, j: PendingK, outcome: Outcome)
    requires OuterShape(s)
    requires LabelKeysFit(s, j.agent)
    ensures Within(s, Absorbed(s, j, outcome), 2 * Cost(j.agent))
    ensures Absorbed(s, j, outcome).pending == s.pending
    ensures Absorbed(s, j, outcome).consumedAttestations == s.consumedAttestations
  {
    ReleaseFits(s, j.agent, {j.policy.outputConf}, {j.policy.outputInteg}, false);
  }

  lemma SettleFits(s: State, inv: InvocationId, outcome: Outcome, res: Option<ResolutionAttestation>)
    requires OuterShape(s) && PostShape(s, Command.SettleInvocation(inv, outcome, res)) && SettleStep(s, inv, outcome, res).Accepted?
    ensures Within(s, SettleStep(s, inv, outcome, res).next, Costs(PostTexts(s, Command.SettleInvocation(inv, outcome, res))))
  {
    hide MapCost, SetCost, Costs, SettleStep, OuterShape, TextCost, PostShape, PostTexts, Absorbed;
    SettleNext(s, inv, outcome, res);
    var n := SettleStep(s, inv, outcome, res).next.pending;
    SettleRecordsFit(s, inv, outcome, res, n);
    SettledFits(s, inv, s.pending[inv], outcome, res, n);
  }

  lemma SettleRecordsFit(s: State, inv: InvocationId, outcome: Outcome, res: Option<ResolutionAttestation>, n: map<InvocationId, PendingK>)
    requires SettleStep(s, inv, outcome, res).Accepted? && n == SettleStep(s, inv, outcome, res).next.pending
    ensures inv in s.pending
    ensures |n| <= |s.pending| && MapCost(n, PendingTexts) <= MapCost(s.pending, PendingTexts)
  {
    SettledRecords(s.pending, inv, outcome, n);
  }

  lemma SettledFits(s: State, inv: InvocationId, j: PendingK, outcome: Outcome, res: Option<ResolutionAttestation>,
                    n: map<InvocationId, PendingK>)
    requires OuterShape(s) && PostShape(s, Command.SettleInvocation(inv, outcome, res)) && inv in s.pending && j == s.pending[inv]
    requires |n| <= |s.pending| && MapCost(n, PendingTexts) <= MapCost(s.pending, PendingTexts)
    ensures Within(s, Absorbed(s, j, outcome).(
                        pending := n,
                        consumedAttestations := s.consumedAttestations + (if res.Some? then {res.value.id} else {})),
                   Costs(PostTexts(s, Command.SettleInvocation(inv, outcome, res))))
  {
    hide MapCost, SetCost, Costs, Absorbed;
    AbsorbedFits(s, j, outcome);
    SettleTexts(j.agent, res);
    SettleEffectFits(s, Absorbed(s, j, outcome), j.agent, n, res);
  }

  lemma SettleTexts(a: AgentId, res: Option<ResolutionAttestation>)
    ensures Costs([a, a] + (if res.Some? then [res.value.id] else [])) == 2 * Cost(a) + (if res.Some? then Cost(res.value.id) else 0)
  {
    assert [a, a] == [a] + [a];
    CostsAppend([a], [a]);
    OneText(a);
    if res.Some? {
      CostsAppend([a, a], [res.value.id]);
      OneText(res.value.id);
    } else {
      assert [a, a] + [] == [a, a];
    }
  }

  /** Whatever labels a crossing releases, and whether or not it is endorsed. */
  lemma CrossEffectFits(s: State, q: CrossInput, confs: set<ConfLevel>, integs: set<IntegLevel>, bypassed: bool, endorsed: bool)
    requires OuterShape(s) && CrossShape(s, q) && (endorsed ==> q.evidence.Some?)
    ensures var burned := Release(s, q.rcv, confs, integs, bypassed).(consumedCrossings := s.consumedCrossings + {q.crossing});
            Within(s,
                   if !endorsed then burned
                   else burned.(consumedAttestations := s.consumedAttestations + {q.evidence.value.id},
                                grants := SpendGrant(s.grants, CrossingKey(q.rcv, q.assignment))),
                   Costs(PostTexts(s, Command.CrossOutput(q))))
  {
    hide MapCost, SetCost, Costs, OuterShape, TextCost, Extend, Demote, SpendGrant, ReleasedConfs, ReleasedIntegs;
    var released := Release(s, q.rcv, confs, integs, bypassed);
    ReleaseFits(s, q.rcv, confs, integs, bypassed);
    BurnCrossingFits(s, released, 2 * Cost(q.rcv), q.crossing);
    CrossTexts(q);
    if endorsed {
      var burned := released.(consumedCrossings := s.consumedCrossings + {q.crossing});
      EndorseFits(s, burned, 2 * Cost(q.rcv) + Cost(q.crossing), q.evidence.value.id, CrossingKey(q.rcv, q.assignment));
    }
  }

  lemma CrossFits(s: State, bg: Background, q: CrossInput)
    requires OuterShape(s) && CrossShape(s, q) && CrossStep(s, bg, q).Accepted?
    ensures Within(s, CrossStep(s, bg, q).next, Costs(PostTexts(s, Command.CrossOutput(q))))
  {
    hide MapCost, SetCost, Costs, OuterShape, TextCost, Release, SpendGrant, PostTexts, Holds;
    var holds := Holds(s.pending, bg, q.rcv, ReleasedConfs(s, q), ReleasedIntegs(s, q));
    CrossEffectFits(s, q, ReleasedConfs(s, q), ReleasedIntegs(s, q), !holds, BranchOf(s, q) == Endorsed);
  }

  lemma BurnCrossingFits(s: State, e: State, extra: nat, id: CrossingId)
    requires Within(s, e, extra) && |e.consumedCrossings| + 1 <= MAX_CONSUMED_CROSSINGS
    ensures Within(s, e.(consumedCrossings := e.consumedCrossings + {id}), extra + Cost(id))
  {
    AddText(e.consumedCrossings, id);
    CrossingsFit(s, e, extra, e.consumedCrossings + {id}, Cost(id));
  }

  /** An endorsement spends its evidence and a use of a grant that stays in place. */
  lemma EndorseFits(s: State, e: State, extra: nat, id: AttestationId, key: CrossingKey)
    requires Within(s, e, extra) && |e.consumedAttestations| + 1 <= MAX_CONSUMED_ATTESTATIONS
    ensures Within(s, e.(consumedAttestations := e.consumedAttestations + {id}, grants := SpendGrant(e.grants, key)), extra + Cost(id))
  {
    SpendFits(s, e, extra, id);
    SpentGrants(e.grants, key);
    GrantsFit(s, e.(consumedAttestations := e.consumedAttestations + {id}), extra + Cost(id), SpendGrant(e.grants, key), 0);
  }

  lemma SpentGrants(grants: map<CrossingKey, CrossingGrant>, key: CrossingKey)
    ensures |SpendGrant(grants, key)| <= |grants| && MapCost(SpendGrant(grants, key), GrantTexts) <= MapCost(grants, GrantTexts)
  {
    if key in grants && grants[key].remaining > 0 {
      var g := CrossingGrant(grants[key].remaining - 1, grants[key].provisioned);
      assert GrantTexts(key, g) == GrantTexts(key, grants[key]);
      Put(grants, key, g, GrantTexts);
    }
  }

  lemma CrossTexts(q: CrossInput)
    ensures Costs([q.crossing, q.rcv, q.rcv] + (if q.evidence.Some? then [q.evidence.value.id] else []))
         == Cost(q.crossing) + 2 * Cost(q.rcv) + (if q.evidence.Some? then Cost(q.evidence.value.id) else 0)
  {
    assert [q.crossing, q.rcv, q.rcv] == [q.crossing] + ([q.rcv] + [q.rcv]);
    CostsCons(q.crossing, [q.rcv] + [q.rcv]);
    CostsAppend([q.rcv], [q.rcv]);
    OneText(q.rcv);
    if q.evidence.Some? {
      CostsAppend([q.crossing, q.rcv, q.rcv], [q.evidence.value.id]);
      OneText(q.evidence.value.id);
    } else {
      assert [q.crossing, q.rcv, q.rcv] + [] == [q.crossing, q.rcv, q.rcv];
    }
  }

  lemma TreeStepFits(s: State, bg: Background, c: CommandV)
    requires OuterShape(s) && PostShape(s, c) && IsTreeCommand(c) && Step(s, bg, CommandOf(c)).Accepted?
    ensures Within(s, Step(s, bg, CommandOf(c)).next, Costs(PostTexts(s, c)))
  {
    hide MapCost, SetCost, OuterShape, DelegateStep, RevokeStep, CascadeRevokeStep;
    match c
    case RegisterTool(tool) => RegisterFits(s, tool);
    case UnregisterTool(tool) => UnregisterFits(s, tool);
    case Delegate(grantor, grantee) => DelegateFits(s, bg, grantor, grantee);
    case GrantCapability(parent, child, cap) => GrantCapabilityFits(s, parent, child, cap);
    case Revoke(parent, target) => RevokeFits(s, bg, parent, target);
    case CascadeRevoke(child, parent) => CascadeRevokeFits(s, bg, child, parent);
  }

  /** No command outgrows what its preflight reserves. */
  lemma StepFits(s: State, bg: Background, c: CommandV)
    requires OuterShape(s) && PostShape(s, c) && Step(s, bg, CommandOf(c)).Accepted?
    ensures Within(s, Step(s, bg, CommandOf(c)).next, Costs(PostTexts(s, c)))
  {
    hide MapCost, SetCost, Costs, Within, OuterShape, BeginStep, AuthorizeStep, SettleStep, CrossStep, IngestStep;
    if IsTreeCommand(c) {
      TreeStepFits(s, bg, c);
    } else {
      match c
      case GrantCrossing(grantor, agent, assignment, n) => GrantCrossingFits(s, bg, grantor, agent, assignment, n);
      case Ingest(agent, src, pconf, pinteg) => IngestFits(s, bg, agent, src, pconf, pinteg);
      case BeginInvocation(agent, inv, chal, policy, egress, ah, authorized) =>
        BeginFits(s, bg, agent, inv, chal, PolicyOf(policy), AsSet(egress), ah, authorized);
      case AuthorizeInspected(inv, att) => AuthorizeFits(s, bg, inv, att);
      case SettleInvocation(inv, outcome, res) => SettleFits(s, inv, outcome, res);
      case CrossOutput(q) => CrossFits(s, bg, q);
    }
  }

  /** The preflight is sound: whatever it lets through leaves a state within the profile. */
  lemma PreflightSound(s: State, bg: Background, sequence: U64, c: CommandV)
    requires Preflight(s, sequence, c).Pass? && Step(s, bg, CommandOf(c)).Accepted?
    ensures StateOk(Step(s, bg, CommandOf(c)).next)
  {
    hide MapCost, SetCost, Costs, Step, PostTexts, CommandFits, TextCost;
    StepFits(s, bg, c);
    NestedAlwaysFits(Step(s, bg, CommandOf(c)).next);
  }

  lemma InitialFits()
    ensures StateOk(Initial())
  {
    hide NestedShape;
    var s := Initial();
    NestedAlwaysFits(s);
    assert s.active == {} + {ROOT};
    AddText({}, ROOT);
    assert s.caps == map[][ROOT := s.caps[ROOT]];
    Put(map[], ROOT, s.caps[ROOT], KeyTexts);
    OneText(ROOT);
    assert KeyTexts(ROOT, s.caps[ROOT]) == [ROOT];
  }

  // ---- Within the budget every text is small ----

  lemma CostsMember(ts: seq<Text>, t: Text)
    requires t in ts
    ensures Cost(t) <= Costs(ts)
  {
    var n := |ts| - 1;
    if t != ts[n] {
      CostsMember(ts[..n], t);
    }
  }

  lemma SmallIfWithinBudget(t: Text)
    requires Cost(t) <= MAX_RETAINED_UTF8_BYTES
    ensures |t| <= MAX_OPAQUE_UTF8_BYTES
  {
  }

  /** The texts a state retains. */
  ghost predicate Retains(s: State, t: Text) {
    || t in s.active || t in s.consumedIds || t in s.consumedAttestations || t in s.consumedCrossings || t in s.tools
    || t in s.caps || t in s.taint || t in s.integ
    || (exists c | c in s.parent :: t in ParentTexts(c, s.parent[c]))
    || (exists i | i in s.pending :: t in PendingTexts(i, s.pending[i]))
    || (exists i | i in s.challenges :: t in ScopeTexts(i, s.challenges[i]))
    || (exists k | k in s.grants :: t in GrantTexts(k, s.grants[k]))
  }

  lemma MapCostMember<K, V>(m: map<K, V>, k: K, t: Text, texts: (K, V) -> seq<Text>)
    requires k in m && t in texts(k, m[k])
    ensures Cost(t) <= MapCost(m, texts)
  {
    MapCostPick(m, k, texts);
    CostsMember(texts(k, m[k]), t);
  }

  /** A state within the budget retains no oversized text. */
  lemma RetainedTextsAreSmall(s: State, t: Text)
    requires TextCost(s) <= MAX_RETAINED_UTF8_BYTES && Retains(s, t)
    ensures |t| <= MAX_OPAQUE_UTF8_BYTES
  {
    if t in s.active { SetCostPick(s.active, t); }
    else if t in s.consumedIds { SetCostPick(s.consumedIds, t); }
    else if t in s.consumedAttestations { SetCostPick(s.consumedAttestations, t); }
    else if t in s.consumedCrossings { SetCostPick(s.consumedCrossings, t); }
    else if t in s.tools { SetCostPick(s.tools, t); }
    else if t in s.caps { MapCostMember(s.caps, t, t, KeyTexts); }
    else if t in s.taint { MapCostMember(s.taint, t, t, KeyTexts); }
    else if t in s.integ { MapCostMember(s.integ, t, t, KeyTexts); }
    else if c :| c in s.parent && t in ParentTexts(c, s.parent[c]) { MapCostMember(s.parent, c, t, ParentTexts); }
    else if i :| i in s.pending && t in PendingTexts(i, s.pending[i]) { MapCostMember(s.pending, i, t, PendingTexts); }
    else if i :| i in s.challenges && t in ScopeTexts(i, s.challenges[i]) { MapCostMember(s.challenges, i, t, ScopeTexts); }
    else {
      var k :| k in s.grants && t in GrantTexts(k, s.grants[k]);
      MapCostMember(s.grants, k, t, GrantTexts);
    }
    SmallIfWithinBudget(t);
  }

  // ---- What the preflight of a crossing refuses ----

  lemma UnionSize<T>(s: set<T>, t: set<T>)
    ensures |t| + |s - t| == |s + t|
  {
    assert s + t == t + (s - t);
  }

  /** The confidentiality bound of a crossing fails exactly when the receiver already holds every level,
      even if the crossing would add nothing: the preflight is sound but not complete. */
  lemma CrossConfRoom(m: map<AgentId, set<ConfLevel>>, src: AgentId, rcv: AgentId)
    ensures SizeWithAll(m, src, rcv) <= MAX_CONF_LEVELS <==> |Of(m, rcv)| < MAX_CONF_LEVELS
  {
    UnionSize(Of(m, src), Of(m, rcv));
    FewConfs(Of(m, src) + Of(m, rcv));
    FewConfs(Of(m, rcv));
    if !(Of(m, src) <= Of(m, rcv)) {
      var l :| l in Of(m, src) && l !in Of(m, rcv);
      SubsetCardinality({l}, Of(m, src) - Of(m, rcv));
    }
  }

  lemma CrossIntegRoom(m: map<AgentId, set<IntegLevel>>, src: AgentId, rcv: AgentId)
    ensures SizeWithAll(m, src, rcv) <= MAX_INTEG_LEVELS <==> |Of(m, rcv)| < MAX_INTEG_LEVELS
  {
    UnionSize(Of(m, src), Of(m, rcv));
    FewIntegs(Of(m, src) + Of(m, rcv));
    FewIntegs(Of(m, rcv));
    if !(Of(m, src) <= Of(m, rcv)) {
      var l :| l in Of(m, src) && l !in Of(m, rcv);
      SubsetCardinality({l}, Of(m, src) - Of(m, rcv));
    }
  }
}
