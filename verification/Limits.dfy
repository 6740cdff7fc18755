/**
  The capacity checks on the Vec-backed state, proved to answer exactly as the capacity profile of the
  state they are given demands.
*/
module Limits {
  import opened Types
  import opened Collections
  import opened Kernel
  import opened Capacity
  import opened Transitions
  import S = Spec

  const USIZE_MAX: nat := 0xFFFF_FFFF_FFFF_FFFF

  /** An addition that overflows the machine word exceeds every maximum as well. */
  function CheckedCapacity(current: nat, addition: nat, maximum: nat): (r: Result<nat, Error>)
    requires maximum <= USIZE_MAX
    ensures r == if current + addition <= maximum then Ok(current + addition) else Err(CapacityExceeded)
  {
    if current + addition > USIZE_MAX then Err(CapacityExceeded)
    else
      var total := current + addition;
      if total <= maximum then Ok(total) else Err(CapacityExceeded)
  }

  function CheckGrowth(current: nat, addition: nat, maximum: nat): (r: Check)
    requires maximum <= USIZE_MAX
    ensures r == Fits(current + addition <= maximum)
  {
    match CheckedCapacity(current, addition, maximum)
    case Ok(_) => Pass
    case Err(e) => Fail(e)
  }

  function CheckLen(current: nat, maximum: nat): (r: Check)
    requires maximum <= USIZE_MAX
    ensures r == Fits(current <= maximum)
  {
    CheckGrowth(current, 0, maximum)
  }

  /** The only way a capacity check can fail. */
  function Fits(ok: bool): Check {
    if ok then Pass else Fail(CapacityExceeded)
  }

  // ---- The text budget ----

  class TextBudget {
    var total: nat

    constructor ()
      ensures total == 0
    {
      total := 0;
    }

    method Add(value: Text) returns (r: Check)
      requires total <= MAX_RETAINED_UTF8_BYTES
      modifies this
      ensures r == Fits(old(total) + Cost(value) <= MAX_RETAINED_UTF8_BYTES)
      ensures total == if r.Pass? then old(total) + Cost(value) else old(total)
    {
      r := Pass;
      :- CheckLen(|value|, MAX_OPAQUE_UTF8_BYTES);
      var grown := CheckedCapacity(total, |value|, MAX_RETAINED_UTF8_BYTES);
      if grown.Err? {
        return Fail(grown.error);
      }
      total := grown.value;
      return Pass;
    }

    /** Add texts one after another, stopping at the first that does not fit. */
    method AddEach(values: seq<Text>) returns (r: Check)
      requires total <= MAX_RETAINED_UTF8_BYTES
      modifies this
      ensures total <= MAX_RETAINED_UTF8_BYTES
      ensures r == Fits(old(total) + Costs(values) <= MAX_RETAINED_UTF8_BYTES)
      ensures r.Pass? ==> total == old(total) + Costs(values)
    {
      var i := 0;
      while i < |values|
        invariant 0 <= i <= |values|
        invariant total == old(total) + Costs(values[..i]) <= MAX_RETAINED_UTF8_BYTES
      {
        CostsNext(values, i);
        CostsPrefix(values, i + 1);
        :- Add(values[i]);
        i := i + 1;
      }
      assert values[..i] == values;
      return Pass;
    }

    /** Add the texts of every entry of a map. */
    method AddEntries<K, V>(entries: seq<(K, V)>, texts: (K, V) -> seq<Text>) returns (r: Check)
      requires total <= MAX_RETAINED_UTF8_BYTES
      modifies this
      ensures total <= MAX_RETAINED_UTF8_BYTES
      ensures r == Fits(old(total) + EntryCosts(entries, texts) <= MAX_RETAINED_UTF8_BYTES)
      ensures r.Pass? ==> total == old(total) + EntryCosts(entries, texts)
    {
      var i := 0;
      while i < |entries|
        invariant 0 <= i <= |entries|
        invariant total == old(total) + EntryCosts(entries[..i], texts) <= MAX_RETAINED_UTF8_BYTES
      {
        EntryCostsNext(entries, i, texts);
        EntryCostsPrefix(entries, i + 1, texts);
        :- AddEach(texts(entries[i].0, entries[i].1));
        i := i + 1;
      }
      assert entries[..i] == entries;
      return Pass;
    }
  }

  function EntryCosts<K, V>(entries: seq<(K, V)>, texts: (K, V) -> seq<Text>): nat {
    if entries == [] then 0
    else
      var n := |entries| - 1;
      EntryCosts(entries[..n], texts) + Costs(texts(entries[n].0, entries[n].1))
  }

  lemma CostsNext(values: seq<Text>, i: nat)
    requires i < |values|
    ensures Costs(values[..i + 1]) == Costs(values[..i]) + Cost(values[i])
  {
    assert values[..i + 1][..i] == values[..i];
  }

  lemma CostsPrefix(values: seq<Text>, i: nat)
    requires i <= |values|
    ensures Costs(values[..i]) <= Costs(values)
  {
    assert values == values[..i] + values[i..];
    CostsAppend(values[..i], values[i..]);
  }

  lemma EntryCostsNext<K, V>(entries: seq<(K, V)>, i: nat, texts: (K, V) -> seq<Text>)
    requires i < |entries|
    ensures EntryCosts(entries[..i + 1], texts) == EntryCosts(entries[..i], texts) + Costs(texts(entries[i].0, entries[i].1))
  {
    assert entries[..i + 1][..i] == entries[..i];
  }

  lemma {:induction false} EntryCostsPrefix<K, V>(entries: seq<(K, V)>, i: nat, texts: (K, V) -> seq<Text>)
    requires i <= |entries|
    ensures EntryCosts(entries[..i], texts) <= EntryCosts(entries, texts)
  {
    if i < |entries| {
      var n := |entries| - 1;
      EntryCostsPrefix(entries[..n], i, texts);
      assert entries[..n][..i] == entries[..i];
    } else {
      assert entries[..i] == entries;
    }
  }

  /** Unique members: the vector costs what its set costs. */
  lemma {:induction false} CostsOfSet(items: seq<Text>)
    requires Unique(items)
    ensures Costs(items) == SetCost(AsSet(items))
  {
    if items != [] {
      var n := |items| - 1;
      CostsOfSet(items[..n]);
      assert items[n] !in items[..n];
      assert AsSet(items) - {items[n]} == AsSet(items[..n]);
      SetCostPick(AsSet(items), items[n]);
    }
  }

  lemma {:induction false} EntryCostsOfMap<K, V>(entries: seq<(K, V)>, texts: (K, V) -> seq<Text>)
    requires UniqueKeys(entries)
    ensures EntryCosts(entries, texts) == MapCost(AsMap(entries), texts)
  {
    if entries != [] {
      var n := |entries| - 1;
      var (k, v) := entries[n];
      EntryCostsOfMap(entries[..n], texts);
      AsMapEntries(entries[..n]);
      assert k !in AsMap(entries[..n]);
      assert AsMap(entries) - {k} == AsMap(entries[..n]);
      MapCostPick(AsMap(entries), k, texts);
    }
  }

  lemma SameCost<K, V, W>(t: map<K, V>, textsT: (K, V) -> seq<Text>, m: map<K, W>, textsM: (K, W) -> seq<Text>)
    requires t.Keys == m.Keys && forall k | k in t :: textsT(k, t[k]) == textsM(k, m[k])
    ensures MapCost(t, textsT) == MapCost(m, textsM)
  {
    MapCostLe(t, textsT, m, textsM);
    MapCostLe(m, textsM, t, textsT);
  }

  lemma LabelEntriesCost<T>(entries: seq<(AgentId, seq<T>)>)
    requires UniqueKeys(entries)
    ensures EntryCosts(entries, KeyTexts) == LabelCost(SetsOf(AsMap(entries)))
  {
    EntryCostsOfMap(entries, KeyTexts);
    SameCost(AsMap(entries), KeyTexts, SetsOf(AsMap(entries)), KeyTexts);
  }

  lemma PendingEntriesCost(entries: seq<(InvocationId, PendingV)>)
    requires UniqueKeys(entries)
    ensures EntryCosts(entries, PendingTexts) == MapCost(PendingsOf(AsMap(entries)), PendingTexts)
  {
    EntryCostsOfMap(entries, PendingTexts);
    SameCost(AsMap(entries), PendingTexts, PendingsOf(AsMap(entries)), PendingTexts);
  }

  lemma ScopeEntriesCost(entries: seq<(InvocationId, ScopeV)>)
    requires UniqueKeys(entries)
    ensures EntryCosts(entries, ScopeTexts) == MapCost(ScopesOf(AsMap(entries)), ScopeTexts)
  {
    EntryCostsOfMap(entries, ScopeTexts);
    SameCost(AsMap(entries), ScopeTexts, ScopesOf(AsMap(entries)), ScopeTexts);
  }

  /** The whole cost of a Vec-backed state, collection by collection, is that of the state it represents. */
  ghost function RetainedCost(s: KernelState): nat
    reads s
  {
    Costs(s.agentActive) + EntryCosts(s.agentParent, ParentTexts) + EntryCosts(s.agentCap, KeyTexts)
    + EntryCosts(s.taintLevels, KeyTexts) + EntryCosts(s.integLevels, KeyTexts)
    + EntryCosts(s.pending, PendingTexts) + EntryCosts(s.challenges, ScopeTexts)
    + Costs(s.consumedIds) + Costs(s.consumedAttestations) + Costs(s.consumedCrossings)
    + EntryCosts(s.crossingGrants, GrantTexts) + Costs(s.toolRegistered)
  }

  lemma RetainedCostIs(s: KernelState)
    requires s.Valid()
    ensures RetainedCost(s) == TextCost(s.View())
  {
    CostsOfSet(s.agentActive);
    EntryCostsOfMap(s.agentParent, ParentTexts);
    LabelEntriesCost(s.agentCap);
    LabelEntriesCost(s.taintLevels);
    LabelEntriesCost(s.integLevels);
    PendingEntriesCost(s.pending);
    ScopeEntriesCost(s.challenges);
    CostsOfSet(s.consumedIds);
    CostsOfSet(s.consumedAttestations);
    CostsOfSet(s.consumedCrossings);
    EntryCostsOfMap(s.crossingGrants, GrantTexts);
    CostsOfSet(s.toolRegistered);
  }

  method RetainedText(s: KernelState) returns (r: Check, text: TextBudget)
    requires s.Valid()
    ensures fresh(text)
    ensures r == Fits(TextCost(s.View()) <= MAX_RETAINED_UTF8_BYTES)
    ensures r.Pass? ==> text.total == TextCost(s.View())
  {
    RetainedCostIs(s);
    text := new TextBudget();
    r := Pass;
    :- text.AddEach(s.agentActive);
    :- text.AddEntries(s.agentParent, ParentTexts);
    :- text.AddEntries(s.agentCap, KeyTexts);
    :- text.AddEntries(s.taintLevels, KeyTexts);
    :- text.AddEntries(s.integLevels, KeyTexts);
    :- text.AddEntries(s.pending, PendingTexts);
    :- text.AddEntries(s.challenges, ScopeTexts);
    :- text.AddEach(s.consumedIds);
    :- text.AddEach(s.consumedAttestations);
    :- text.AddEach(s.consumedCrossings);
    :- text.AddEntries(s.crossingGrants, GrantTexts);
    :- text.AddEach(s.toolRegistered);
  }

  // ---- The shape of a state ----

  /** The set stored at every key has at most `maximum` members. */
  method CheckSets<T>(entries: seq<(AgentId, seq<T>)>, maximum: nat) returns (r: Check)
    requires maximum <= USIZE_MAX && UniqueKeys(entries) && UniqueValues(entries)
    ensures r == Fits(SetsShape(SetsOf(AsMap(entries)), maximum))
  {
    AsMapEntries(entries);
    ghost var m := SetsOf(AsMap(entries));
    var i := 0;
    while i < |entries|
      invariant 0 <= i <= |entries|
      invariant forall k | 0 <= k < i :: |m[entries[k].0]| <= maximum
    {
      assert entries[i] in entries;
      UniqueCardinality(entries[i].1);
      assert entries[i].0 in m && |m[entries[i].0]| == |entries[i].1|;
      :- CheckLen(|entries[i].1|, maximum);
      i := i + 1;
    }
    forall k | k in m ensures |m[k]| <= maximum {
      var h :| 0 <= h < |entries| && entries[h].0 == k;
    }
    return Pass;
  }

  /** The three sets of a record or of a challenge. */
  method CheckNested(p: PolicyV, egress: seq<EgressKind>) returns (r: Check)
    requires UniquePolicy(p) && Unique(egress)
    ensures r == Fits(PolicyShape(PolicyOf(p)) && |AsSet(egress)| <= MAX_EGRESS_KINDS)
  {
    UniqueCardinality(p.requiredCaps);
    UniqueCardinality(p.declaredEgress);
    UniqueCardinality(egress);
    :- CheckLen(|p.requiredCaps|, MAX_CAPABILITIES);
    :- CheckLen(|p.declaredEgress|, MAX_EGRESS_KINDS);
    r := CheckLen(|egress|, MAX_EGRESS_KINDS);
  }

  method CheckPending(j: PendingV) returns (r: Check)
    requires UniquePolicy(j.policy) && Unique(j.egress)
    ensures r == Fits(RecordShape(PendingOf(j)))
  {
    r := CheckNested(j.policy, j.egress);
  }

  method CheckPendings(entries: seq<(InvocationId, PendingV)>) returns (r: Check)
    requires UniqueKeys(entries) && UniquePendings(entries)
    ensures r == Fits(RecordsShape(PendingsOf(AsMap(entries))))
  {
    hide RecordShape, PendingOf, AsMap, UniquePolicy;
    AsMapEntries(entries);
    ghost var m := PendingsOf(AsMap(entries));
    var i := 0;
    while i < |entries|
      invariant 0 <= i <= |entries|
      invariant forall k | 0 <= k < i :: RecordShape(m[entries[k].0])
    {
      assert entries[i] in entries && entries[i].0 in m && m[entries[i].0] == PendingOf(entries[i].1);
      :- CheckPending(entries[i].1);
      i := i + 1;
    }
    forall k | k in m ensures RecordShape(m[k]) {
      var h :| 0 <= h < |entries| && entries[h].0 == k;
    }
    return Pass;
  }

  method CheckScopes(entries: seq<(InvocationId, ScopeV)>) returns (r: Check)
    requires UniqueKeys(entries) && UniqueScopes(entries)
    ensures r == Fits(ScopesShape(ScopesOf(AsMap(entries))))
  {
    AsMapEntries(entries);
    ghost var m := ScopesOf(AsMap(entries));
    var i := 0;
    while i < |entries|
      invariant 0 <= i <= |entries|
      invariant forall k | 0 <= k < i :: ScopeShape(m[entries[k].0])
    {
      assert entries[i] in entries && entries[i].0 in m && m[entries[i].0] == ScopeOf(entries[i].1);
      :- CheckNested(entries[i].1.policy, entries[i].1.egress);
      i := i + 1;
    }
    forall k | k in m ensures ScopeShape(m[k]) {
      var h :| 0 <= h < |entries| && entries[h].0 == k;
    }
    return Pass;
  }

  /** Vector lengths are set and map sizes. */
  lemma Lengths(s: KernelState)
    requires s.Valid()
    ensures var v := s.View();
            && |v.active| == |s.agentActive| && |v.parent| == |s.agentParent| && |v.caps| == |s.agentCap|
            && |v.taint| == |s.taintLevels| && |v.integ| == |s.integLevels| && |v.pending| == |s.pending|
            && |v.challenges| == |s.challenges| && |v.grants| == |s.crossingGrants|
            && |v.consumedIds| == |s.consumedIds| && |v.consumedAttestations| == |s.consumedAttestations|
            && |v.consumedCrossings| == |s.consumedCrossings| && |v.tools| == |s.toolRegistered|
  {
    UniqueCardinality(s.agentActive);
    UniqueCardinality(s.consumedIds);
    UniqueCardinality(s.consumedAttestations);
    UniqueCardinality(s.consumedCrossings);
    UniqueCardinality(s.toolRegistered);
    AsMapEntries(s.agentParent);
    AsMapEntries(s.crossingGrants);
    SetsLength(s.agentCap);
    SetsLength(s.taintLevels);
    SetsLength(s.integLevels);
    AsMapEntries(s.pending);
    AsMapEntries(s.challenges);
    assert s.View().pending.Keys == AsMap(s.pending).Keys;
    assert s.View().challenges.Keys == AsMap(s.challenges).Keys;
  }

  lemma SetsLength<T>(entries: seq<(AgentId, seq<T>)>)
    requires UniqueKeys(entries)
    ensures |SetsOf(AsMap(entries))| == |entries|
  {
    AsMapEntries(entries);
    assert SetsOf(AsMap(entries)).Keys == AsMap(entries).Keys;
  }

  method CheckStateShape(s: KernelState) returns (r: Check)
    requires s.Valid()
    ensures r == Fits(OuterShape(s.View()) && NestedShape(s.View()))
  {
    Lengths(s);
    :- CheckLen(|s.agentActive|, MAX_AGENTS);
    :- CheckLen(|s.agentParent|, MAX_PARENT_OR_LABEL_KEYS);
    :- CheckLen(|s.agentCap|, MAX_PARENT_OR_LABEL_KEYS);
    :- CheckLen(|s.taintLevels|, MAX_PARENT_OR_LABEL_KEYS);
    :- CheckLen(|s.integLevels|, MAX_PARENT_OR_LABEL_KEYS);
    :- CheckLen(|s.pending|, MAX_PENDING);
    :- CheckLen(|s.challenges|, MAX_CHALLENGES);
    :- CheckLen(|s.crossingGrants|, MAX_CROSSING_GRANTS);
    :- CheckLen(|s.consumedIds|, MAX_CONSUMED_IDS);
    :- CheckLen(|s.consumedAttestations|, MAX_CONSUMED_ATTESTATIONS);
    :- CheckLen(|s.consumedCrossings|, MAX_CONSUMED_CROSSINGS);
    :- CheckLen(|s.toolRegistered|, MAX_TOOLS);
    r := CheckNestedShape(s);
  }

  method CheckNestedShape(s: KernelState) returns (r: Check)
    requires s.Valid()
    ensures r == Fits(NestedShape(s.View()))
  {
    r := Pass;
    :- CheckSets(s.agentCap, MAX_CAPABILITIES);
    :- CheckSets(s.taintLevels, MAX_CONF_LEVELS);
    :- CheckSets(s.integLevels, MAX_INTEG_LEVELS);
    :- CheckPendings(s.pending);
    r := CheckScopes(s.challenges);
  }

  /** The state's shape, then the text it retains. */
  method CheckedStateText(s: KernelState) returns (r: Check, text: TextBudget)
    requires s.Valid()
    ensures fresh(text)
    ensures r == Fits(StateOk(s.View()))
    ensures r.Pass? ==> text.total == TextCost(s.View())
  {
    text := new TextBudget();
    r := CheckStateShape(s);
    if r.Pass? {
      r, text := RetainedText(s);
    }
  }

  method CheckState(s: KernelState) returns (r: Check)
    requires s.Valid()
    ensures r == Fits(StateOk(s.View()))
  {
    var text;
    r, text := CheckedStateText(s);
  }

  /** The check before a recorded link: the state first, then the sequence. */
  method CheckRecoveryLink(s: KernelState, sequence: U64) returns (r: Check)
    requires s.Valid()
    ensures r == if !StateOk(s.View()) then Fail(CapacityExceeded)
                 else if !SequenceLeft(sequence) then Fail(SequenceExhausted)
                 else Pass
  {
    r := Pass;
    :- CheckState(s);
    r := CheckSequence(sequence);
  }

  function CheckSequence(sequence: U64): (r: Check)
    ensures r == if SequenceLeft(sequence) then Pass else Fail(SequenceExhausted)
  {
    if sequence as int == U64_MAX then Fail(SequenceExhausted)
    else if sequence as int + 1 > MAX_ACCEPTED_SEQUENCE then Fail(SequenceExhausted)
    else Pass
  }

  // ---- The command ----

  method CheckTexts(values: seq<Text>) returns (r: Check)
    ensures r == Fits(SmallTexts(values))
  {
    var i := 0;
    while i < |values|
      invariant 0 <= i <= |values|
      invariant SmallTexts(values[..i])
    {
      assert values[i] in values;
      assert values[..i + 1] == values[..i] + [values[i]];
      :- CheckLen(|values[i]|, MAX_OPAQUE_UTF8_BYTES);
      i := i + 1;
    }
    assert values[..i] == values;
    return Pass;
  }

  method CheckCommand(c: CommandV) returns (r: Check)
    ensures r == Fits(CommandFits(c))
  {
    r := Pass;
    :- CheckTexts(CommandTexts(c));
    if c.BeginInvocation? {
      :- CheckLen(|c.policy.requiredCaps|, MAX_CAPABILITIES);
      :- CheckLen(|c.policy.declaredEgress|, MAX_EGRESS_KINDS);
      :- CheckLen(|c.egress|, MAX_EGRESS_KINDS);
    }
    return Pass;
  }

  // ---- What a command may add ----

  lemma SetsAt<T>(entries: seq<(AgentId, seq<T>)>, a: AgentId)
    ensures SetAt(AsMap(entries), a) == S.Of(SetsOf(AsMap(entries)), a)
    ensures a in AsMap(entries) <==> a in SetsOf(AsMap(entries))
  {
  }

  /** One more key, unless it is bound already. */
  method CheckLabelKey<T>(entries: seq<(AgentId, seq<T>)>, agent: AgentId) returns (r: Check)
    requires UniqueKeys(entries)
    ensures r == Fits(KeysWith(SetsOf(AsMap(entries)), agent) <= MAX_PARENT_OR_LABEL_KEYS)
  {
    SetsLength(entries);
    SetsAt(entries, agent);
    var bound := MapContains(entries, agent);
    r := CheckGrowth(|entries|, if bound then 0 else 1, MAX_PARENT_OR_LABEL_KEYS);
  }

  /** One more member at `agent`, unless it is there already. */
  method CheckMember<T(==)>(entries: seq<(AgentId, seq<T>)>, agent: AgentId, x: T, maximum: nat) returns (r: Check)
    requires UniqueKeys(entries) && UniqueValues(entries) && maximum <= USIZE_MAX
    ensures r == Fits(SizeWith(SetsOf(AsMap(entries)), agent, x) <= maximum)
  {
    SetsAt(entries, agent);
    var held := MapGetSet(entries, agent);
    UniqueCardinality(held);
    var present := SetContains(held, x);
    r := CheckGrowth(|held|, if present then 0 else 1, maximum);
  }

  lemma MissingNext<T>(levels: seq<T>, i: nat, held: seq<T>)
    requires Unique(levels) && i < |levels|
    ensures |AsSet(levels[..i + 1]) - AsSet(held)| == |AsSet(levels[..i]) - AsSet(held)| + (if levels[i] in held then 0 else 1)
  {
    var seen := AsSet(levels[..i]) - AsSet(held);
    assert levels[..i + 1] == levels[..i] + [levels[i]] && levels[i] !in levels[..i];
    assert AsSet(levels[..i + 1]) - AsSet(held) == if levels[i] in held then seen else seen + {levels[i]};
  }

  /** How many of the levels the other set lacks. */
  method CountMissing<T(==)>(levels: seq<T>, held: seq<T>) returns (count: nat)
    requires Unique(levels)
    ensures count == |AsSet(levels) - AsSet(held)|
  {
    count := 0;
    var i := 0;
    while i < |levels|
      invariant 0 <= i <= |levels|
      invariant count == |AsSet(levels[..i]) - AsSet(held)|
    {
      MissingNext(levels, i, held);
      var present := SetContains(held, levels[i]);
      if !present {
        count := count + 1;
      }
      i := i + 1;
    }
    assert levels[..i] == levels;
  }

  /** The members of `src` that `rcv` lacks, but never fewer than one. */
  method CheckUnion<T(==)>(entries: seq<(AgentId, seq<T>)>, src: AgentId, rcv: AgentId, maximum: nat) returns (r: Check)
    requires UniqueKeys(entries) && UniqueValues(entries) && maximum <= USIZE_MAX
    ensures r == Fits(SizeWithAll(SetsOf(AsMap(entries)), src, rcv) <= maximum)
  {
    SetsAt(entries, src);
    SetsAt(entries, rcv);
    var levels := MapGetSet(entries, src);
    var held := MapGetSet(entries, rcv);
    UniqueCardinality(held);
    var count := CountMissing(levels, held);
    MissingNone(AsSet(levels), AsSet(held));
    r := CheckGrowth(|held|, if count == 0 then 1 else count, maximum);
  }

  lemma MissingNone<T>(s: set<T>, t: set<T>)
    ensures |s - t| == 0 <==> s <= t
  {
    if |s - t| == 0 {
      assert s - t == {};
      assert forall x | x in s :: x !in s - t;
    } else {
      var x :| x in s - t;
    }
  }

  method CheckLabelKeys(s: KernelState, agent: AgentId) returns (r: Check)
    requires s.Valid()
    ensures r == Fits(LabelKeysFit(s.View(), agent))
  {
    r := Pass;
    :- CheckLabelKey(s.taintLevels, agent);
    r := CheckLabelKey(s.integLevels, agent);
  }

  method CheckLevels(s: KernelState, agent: AgentId, pconf: ConfLevel, pinteg: IntegLevel) returns (r: Check)
    requires s.Valid()
    ensures r == Fits(SizeWith(s.View().taint, agent, pconf) <= MAX_CONF_LEVELS
                      && SizeWith(s.View().integ, agent, pinteg) <= MAX_INTEG_LEVELS)
  {
    r := Pass;
    :- CheckMember(s.taintLevels, agent, pconf, MAX_CONF_LEVELS);
    r := CheckMember(s.integLevels, agent, pinteg, MAX_INTEG_LEVELS);
  }

  method CheckCrossShape(s: KernelState, q: CrossInput) returns (r: Check)
    requires s.Valid()
    ensures r == Fits(CrossShape(s.View(), q))
  {
    Lengths(s);
    :- CheckGrowth(|s.consumedCrossings|, 1, MAX_CONSUMED_CROSSINGS);
    if q.evidence.Some? {
      :- CheckGrowth(|s.consumedAttestations|, 1, MAX_CONSUMED_ATTESTATIONS);
    }
    :- CheckLabelKeys(s, q.rcv);
    :- CheckUnion(s.taintLevels, q.src, q.rcv, MAX_CONF_LEVELS);
    r := CheckUnion(s.integLevels, q.src, q.rcv, MAX_INTEG_LEVELS);
  }

  method CheckIngestShape(s: KernelState, agent: AgentId, src: Option<AgentId>, pconf: ConfLevel, pinteg: IntegLevel)
    returns (r: Check)
    requires s.Valid()
    ensures r == Fits(PostShape(s.View(), Command.Ingest(agent, src, pconf, pinteg)))
  {
    r := Pass;
    :- CheckLabelKeys(s, agent);
    r := CheckLevels(s, agent, pconf, pinteg);
  }

  method OwnerOf(s: KernelState, inv: InvocationId) returns (owner: Option<AgentId>)
    requires s.Valid()
    ensures owner == if inv in s.View().pending then Some(s.View().pending[inv].agent) else None
  {
    var j := MapGet(s.pending, inv);
    owner := if j.Some? then Some(j.value.agent) else None;
  }

  method CheckSettleShape(s: KernelState, inv: InvocationId, resolved: bool) returns (r: Check)
    requires s.Valid()
    ensures r == Fits(SettleShape(s.View(), inv, resolved))
  {
    UniqueCardinality(s.consumedAttestations);
    if resolved {
      :- CheckGrowth(|s.consumedAttestations|, 1, MAX_CONSUMED_ATTESTATIONS);
    }
    var owner := OwnerOf(s, inv);
    if owner.Some? {
      :- CheckLabelKeys(s, owner.value);
    }
    return Pass;
  }

  method CheckTreeShape(s: KernelState, c: CommandV) returns (r: Check)
    requires s.Valid() && IsTreeCommand(c)
    ensures r == Fits(PostShape(s.View(), c))
  {
    Lengths(s);
    match c
    case RegisterTool(_) => r := CheckGrowth(|s.toolRegistered|, 1, MAX_TOOLS);
    case UnregisterTool(_) => r := Pass;
    case Revoke(_, _) => r := Pass;
    case CascadeRevoke(_, _) => r := Pass;
    case Delegate(_, _) =>
      :- CheckGrowth(|s.agentActive|, 1, MAX_AGENTS);
      r := CheckGrowth(|s.agentParent|, 1, MAX_PARENT_OR_LABEL_KEYS);
    case GrantCapability(_, child, cap) =>
      :- CheckLabelKey(s.agentCap, child);
      r := CheckMember(s.agentCap, child, cap, MAX_CAPABILITIES);
  }

  /** Room in the collections that the command may grow. */
  method CheckPostShape(s: KernelState, c: CommandV) returns (r: Check)
    requires s.Valid()
    ensures r == Fits(PostShape(s.View(), c))
  {
    hide LabelKeysFit, SettleShape, CrossShape, SizeWith, KeysWith;
    if IsTreeCommand(c) {
      r := CheckTreeShape(s, c);
      return;
    }
    Lengths(s);
    match c
    case GrantCrossing(_, _, _, _) => r := CheckGrowth(|s.crossingGrants|, 1, MAX_CROSSING_GRANTS);
    case Ingest(agent, src, pconf, pinteg) => r := CheckIngestShape(s, agent, src, pconf, pinteg);
    case BeginInvocation(_, _, _, _, _, _, _) =>
      :- CheckGrowth(|s.pending|, 1, MAX_PENDING);
      :- CheckGrowth(|s.challenges|, 1, MAX_CHALLENGES);
      r := CheckGrowth(|s.consumedIds|, 1, MAX_CONSUMED_IDS);
    case AuthorizeInspected(_, _) =>
      :- CheckGrowth(|s.pending|, 1, MAX_PENDING);
      r := CheckGrowth(|s.consumedAttestations|, 1, MAX_CONSUMED_ATTESTATIONS);
    case SettleInvocation(inv, outcome, res) => r := CheckSettleShape(s, inv, res.Some?);
    case CrossOutput(q) => r := CheckCrossShape(s, q);
  }

  /** The label keys that the agent still lacks. */
  method KeyTextsOf(s: KernelState, agent: AgentId) returns (ts: seq<Text>)
    requires s.Valid()
    ensures ts == (if agent in s.View().taint then [] else [agent]) + (if agent in s.View().integ then [] else [agent])
  {
    var taintBound := MapContains(s.taintLevels, agent);
    var integBound := MapContains(s.integLevels, agent);
    ts := (if taintBound then [] else [agent]) + (if integBound then [] else [agent]);
  }

  /** The text of the record that resolving the challenge of `inv` may leave. */
  method ScopeTextsOf(s: KernelState, inv: InvocationId) returns (ts: seq<Text>)
    requires s.Valid()
    ensures var challenges := s.View().challenges;
            ts == if inv in challenges
                  then [inv, challenges[inv].agent, challenges[inv].policy.tool, challenges[inv].policy.policyDigest]
                  else []
  {
    var sc := MapGet(s.challenges, inv);
    ts := if sc.Some? then [inv, sc.value.agent, sc.value.policy.tool, sc.value.policy.policyDigest] else [];
  }

  /** The text that the command may add. */
  method CollectPostTexts(s: KernelState, c: CommandV) returns (ts: seq<Text>)
    requires s.Valid()
    ensures ts == PostTexts(s.View(), c)
  {
    match c
    case RegisterTool(tool) => ts := [tool];
    case UnregisterTool(_) => ts := [];
    case Revoke(_, _) => ts := [];
    case CascadeRevoke(_, _) => ts := [];
    case Delegate(grantor, grantee) => ts := [grantee, grantee, grantor];
    case GrantCapability(_, child, _) =>
      var bound := MapContains(s.agentCap, child);
      ts := if bound then [] else [child];
    case GrantCrossing(_, agent, assignment, _) => ts := [agent, assignment];
    case Ingest(agent, _, _, _) =>
      ts := KeyTextsOf(s, agent);
    case BeginInvocation(agent, inv, chal, policy, _, ah, _) =>
      ts := [inv, inv, agent, chal, policy.tool, policy.policyDigest, ah];
    case AuthorizeInspected(inv, att) =>
      var scope := ScopeTextsOf(s, inv);
      ts := [att.id, att.id] + scope;
    case SettleInvocation(inv, _, res) =>
      var owner := OwnerOf(s, inv);
      ts := (if owner.Some? then [owner.value, owner.value] else []) + (if res.Some? then [res.value.id] else []);
    case CrossOutput(q) =>
      ts := [q.crossing, q.rcv, q.rcv] + (if q.evidence.Some? then [q.evidence.value.id] else []);
  }

  /** Room for what the command may add, then budget for the text it may add. */
  method CheckPostTransition(s: KernelState, c: CommandV, text: TextBudget) returns (r: Check)
    requires s.Valid() && text.total == TextCost(s.View()) <= MAX_RETAINED_UTF8_BYTES
    modifies text
    ensures r == Fits(PostFits(s.View(), c))
  {
    r := Pass;
    :- CheckPostShape(s, c);
    var ts := CollectPostTexts(s, c);
    r := text.AddEach(ts);
  }

  /** The preflight of a command. */
  method Preflight(s: KernelState, sequence: U64, c: CommandV) returns (r: Check)
    requires s.Valid()
    ensures r == Capacity.Preflight(s.View(), sequence, c)
  {
    hide CommandFits, PostFits, TextCost, OuterShape, NestedShape, KernelState.View, KernelState.Valid;
    r := Pass;
    :- CheckSequence(sequence);
    var text;
    r, text := CheckedStateText(s);
    if r.Pass? {
      :- CheckCommand(c);
      r := CheckPostTransition(s, c, text);
    }
  }
}
