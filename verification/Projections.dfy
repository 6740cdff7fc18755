/**
  The observable projection of a kernel state: every collection as a list sorted by its canonical order.
  Two kernel states have one projection exactly when they agree as maps and sets.
*/
module Projections {
  import opened Types
  import opened Collections
  import opened Kernel
  import opened Sorting
  import opened Chain
  import S = Spec

  datatype Projection = Projection(
    agentActive: seq<AgentId>,
    agentParent: seq<(AgentId, AgentId)>,
    agentCap: seq<(AgentId, seq<CapKind>)>,
    taintLevels: seq<(AgentId, seq<ConfLevel>)>,
    integLevels: seq<(AgentId, seq<IntegLevel>)>,
    pending: seq<(InvocationId, PendingV)>,
    challenges: seq<(InvocationId, ScopeV)>,
    consumedIds: seq<InvocationId>,
    consumedAttestations: seq<AttestationId>,
    consumedCrossings: seq<CrossingId>,
    crossingGrants: seq<(CrossingKey, CrossingGrant)>,
    toolRegistered: seq<ToolId>)

  function TextKey(): Text -> Text {
    (t: Text) => t
  }

  function EntryKey<K, V>(): ((K, V)) -> K {
    (e: (K, V)) => e.0
  }

  // ---- What a sorted list stands for ----

  ghost predicate TextsListed(xs: seq<Text>, s: set<Text>) {
    Ascending(xs, TextKey(), LexLess) && AsSet(xs) == s
  }

  ghost predicate KeysAscend<V>(es: seq<(Text, V)>) {
    Ascending(es, EntryKey(), LexLess)
  }

  ghost predicate TagsAscend<T>(xs: seq<T>, tag: T -> Byte) {
    Ascending(xs, tag, ByteLess)
  }

  ghost predicate LevelsListed<T>(es: seq<(AgentId, seq<T>)>, m: map<AgentId, set<T>>, tag: T -> Byte) {
    KeysAscend(es) && SetsOf(AsMap(es)) == m && forall e | e in es :: TagsAscend(e.1, tag)
  }

  ghost predicate PolicyListed(p: PolicyV) {
    TagsAscend(p.requiredCaps, CapTag) && TagsAscend(p.declaredEgress, EgressTag)
  }

  ghost predicate RecordListed(j: PendingV) {
    PolicyListed(j.policy) && TagsAscend(j.egress, EgressTag)
  }

  ghost predicate ScopeListed(sc: ScopeV) {
    PolicyListed(sc.policy) && TagsAscend(sc.egress, EgressTag)
  }

  ghost predicate RecordsListed(es: seq<(InvocationId, PendingV)>, m: map<InvocationId, PendingK>) {
    KeysAscend(es) && PendingsOf(AsMap(es)) == m && forall e | e in es :: RecordListed(e.1)
  }

  ghost predicate ScopesListed(es: seq<(InvocationId, ScopeV)>, m: map<InvocationId, ScopeK>) {
    KeysAscend(es) && ScopesOf(AsMap(es)) == m && forall e | e in es :: ScopeListed(e.1)
  }

  ghost predicate GrantsListed(es: seq<(CrossingKey, CrossingGrant)>, m: map<CrossingKey, CrossingGrant>) {
    Ascending(es, EntryKey(), KeyLess) && AsMap(es) == m
  }

  /** `p` lists the state `v` in canonical order. */
  ghost predicate Projects(p: Projection, v: S.State) {
    && TextsListed(p.agentActive, v.active)
    && KeysAscend(p.agentParent) && AsMap(p.agentParent) == v.parent
    && LevelsListed(p.agentCap, v.caps, CapTag)
    && LevelsListed(p.taintLevels, v.taint, ConfTag)
    && LevelsListed(p.integLevels, v.integ, IntegTag)
    && RecordsListed(p.pending, v.pending)
    && ScopesListed(p.challenges, v.challenges)
    && TextsListed(p.consumedIds, v.consumedIds)
    && TextsListed(p.consumedAttestations, v.consumedAttestations)
    && TextsListed(p.consumedCrossings, v.consumedCrossings)
    && GrantsListed(p.crossingGrants, v.grants)
    && TextsListed(p.toolRegistered, v.tools)
  }

  /** A projection shows every component of the state in its own place, and nothing else there. */
  lemma ProjectionShows(p: Projection, v: S.State)
    requires Projects(p, v)
    ensures forall a :: a in p.agentActive <==> a in v.active
    ensures forall t :: t in p.toolRegistered <==> t in v.tools
    ensures forall i :: i in p.consumedIds <==> i in v.consumedIds
    ensures forall i :: i in p.consumedAttestations <==> i in v.consumedAttestations
    ensures forall i :: i in p.consumedCrossings <==> i in v.consumedCrossings
    ensures forall c, q :: (c, q) in p.agentParent <==> c in v.parent && v.parent[c] == q
    ensures forall k, g :: (k, g) in p.crossingGrants <==> k in v.grants && v.grants[k] == g
  {
    hide LevelsListed, RecordsListed, ScopesListed;
    ListShows(p.agentActive, v.active);
    ListShows(p.toolRegistered, v.tools);
    ListShows(p.consumedIds, v.consumedIds);
    ListShows(p.consumedAttestations, v.consumedAttestations);
    ListShows(p.consumedCrossings, v.consumedCrossings);
    LexOrder();
    KeyOrder();
    AscendingKeysAreUnique(p.agentParent, LexLess);
    AscendingKeysAreUnique(p.crossingGrants, KeyLess);
    forall c, q ensures (c, q) in p.agentParent <==> c in v.parent && v.parent[c] == q {
      MembersOfMap(p.agentParent, c, q);
    }
    forall k, g ensures (k, g) in p.crossingGrants <==> k in v.grants && v.grants[k] == g {
      MembersOfMap(p.crossingGrants, k, g);
    }
  }

  lemma ListShows(xs: seq<Text>, s: set<Text>)
    requires TextsListed(xs, s)
    ensures forall x :: x in xs <==> x in s
  {
    forall x ensures x in xs <==> x in s {
      assert x in xs <==> x in AsSet(xs);
    }
  }

  // ---- One state, one projection ----

  lemma AscendingKeysAreUnique<K(!new), V>(es: seq<(K, V)>, less: (K, K) -> bool)
    requires StrictOrder(less) && Ascending(es, EntryKey(), less)
    ensures UniqueKeys(es)
  {
    forall i, k | 0 <= i < k < |es| ensures es[i].0 != es[k].0 {
      assert less(EntryKey<K, V>()(es[i]), EntryKey<K, V>()(es[k]));
    }
  }

  lemma MembersOfMap<K, V>(es: seq<(K, V)>, k: K, v: V)
    requires UniqueKeys(es)
    ensures (k, v) in es <==> k in AsMap(es) && AsMap(es)[k] == v
  {
    AsMapEntries(es);
    if k in AsMap(es) && AsMap(es)[k] == v {
      var i :| 0 <= i < |es| && es[i].0 == k;
      assert es[i] == (k, v);
    }
  }

  lemma EntriesAreUnique<K(!new), V>(es: seq<(K, V)>, fs: seq<(K, V)>, less: (K, K) -> bool)
    requires StrictOrder(less) && Ascending(es, EntryKey(), less) && Ascending(fs, EntryKey(), less)
    requires AsMap(es) == AsMap(fs)
    ensures es == fs
  {
    AscendingKeysAreUnique(es, less);
    AscendingKeysAreUnique(fs, less);
    forall e ensures e in es <==> e in fs {
      MembersOfMap(es, e.0, e.1);
      MembersOfMap(fs, e.0, e.1);
    }
    AscendingIsUnique(es, fs, EntryKey(), less);
  }

  lemma TextsAreUnique(xs: seq<Text>, ys: seq<Text>, s: set<Text>)
    requires TextsListed(xs, s) && TextsListed(ys, s)
    ensures xs == ys
  {
    LexOrder();
    AscendingIsUnique(xs, ys, TextKey(), LexLess);
  }

  lemma TagsAreUnique<T>(xs: seq<T>, ys: seq<T>, tag: T -> Byte)
    requires TagsAscend(xs, tag) && TagsAscend(ys, tag) && AsSet(xs) == AsSet(ys)
    ensures xs == ys
  {
    ByteOrder();
    AscendingIsUnique(xs, ys, tag, ByteLess);
  }

  /** A stored value satisfies what every entry satisfies. */
  lemma StoredValue<K, V>(es: seq<(K, V)>, k: K)
    requires UniqueKeys(es) && k in AsMap(es)
    ensures (k, AsMap(es)[k]) in es
  {
    MembersOfMap(es, k, AsMap(es)[k]);
  }

  lemma LevelsAreUnique<T>(es: seq<(AgentId, seq<T>)>, fs: seq<(AgentId, seq<T>)>, m: map<AgentId, set<T>>, tag: T -> Byte)
    requires LevelsListed(es, m, tag) && LevelsListed(fs, m, tag)
    ensures es == fs
  {
    LexOrder();
    AscendingKeysAreUnique(es, LexLess);
    AscendingKeysAreUnique(fs, LexLess);
    var a, b := AsMap(es), AsMap(fs);
    assert a.Keys == SetsOf(a).Keys == SetsOf(b).Keys == b.Keys;
    forall k | k in a ensures a[k] == b[k] {
      StoredValue(es, k);
      StoredValue(fs, k);
      assert SetsOf(a)[k] == AsSet(a[k]) && SetsOf(b)[k] == AsSet(b[k]);
      TagsAreUnique(a[k], b[k], tag);
    }
    EntriesAreUnique(es, fs, LexLess);
  }

  lemma PoliciesAreUnique(p: PolicyV, q: PolicyV)
    requires PolicyListed(p) && PolicyListed(q) && PolicyOf(p) == PolicyOf(q)
    ensures p == q
  {
    TagsAreUnique(p.requiredCaps, q.requiredCaps, CapTag);
    TagsAreUnique(p.declaredEgress, q.declaredEgress, EgressTag);
  }

  lemma RecordsAreUnique(es: seq<(InvocationId, PendingV)>, fs: seq<(InvocationId, PendingV)>, m: map<InvocationId, PendingK>)
    requires RecordsListed(es, m) && RecordsListed(fs, m)
    ensures es == fs
  {
    LexOrder();
    AscendingKeysAreUnique(es, LexLess);
    AscendingKeysAreUnique(fs, LexLess);
    var a, b := AsMap(es), AsMap(fs);
    assert a.Keys == PendingsOf(a).Keys == PendingsOf(b).Keys == b.Keys;
    forall k | k in a ensures a[k] == b[k] {
      StoredValue(es, k);
      StoredValue(fs, k);
      assert PendingsOf(a)[k] == PendingOf(a[k]) && PendingsOf(b)[k] == PendingOf(b[k]);
      PoliciesAreUnique(a[k].policy, b[k].policy);
      TagsAreUnique(a[k].egress, b[k].egress, EgressTag);
    }
    EntriesAreUnique(es, fs, LexLess);
  }

  lemma ScopesAreUnique(es: seq<(InvocationId, ScopeV)>, fs: seq<(InvocationId, ScopeV)>, m: map<InvocationId, ScopeK>)
    requires ScopesListed(es, m) && ScopesListed(fs, m)
    ensures es == fs
  {
    LexOrder();
    AscendingKeysAreUnique(es, LexLess);
    AscendingKeysAreUnique(fs, LexLess);
    var a, b := AsMap(es), AsMap(fs);
    assert a.Keys == ScopesOf(a).Keys == ScopesOf(b).Keys == b.Keys;
    forall k | k in a ensures a[k] == b[k] {
      StoredValue(es, k);
      StoredValue(fs, k);
      assert ScopesOf(a)[k] == ScopeOf(a[k]) && ScopesOf(b)[k] == ScopeOf(b[k]);
      PoliciesAreUnique(a[k].policy, b[k].policy);
      TagsAreUnique(a[k].egress, b[k].egress, EgressTag);
    }
    EntriesAreUnique(es, fs, LexLess);
  }

  lemma SameStateSameProjection(p: Projection, q: Projection, v: S.State)
    requires Projects(p, v) && Projects(q, v)
    ensures p == q
  {
    LexOrder();
    KeyOrder();
    TextsAreUnique(p.agentActive, q.agentActive, v.active);
    EntriesAreUnique(p.agentParent, q.agentParent, LexLess);
    LevelsAreUnique(p.agentCap, q.agentCap, v.caps, CapTag);
    LevelsAreUnique(p.taintLevels, q.taintLevels, v.taint, ConfTag);
    LevelsAreUnique(p.integLevels, q.integLevels, v.integ, IntegTag);
    RecordsAreUnique(p.pending, q.pending, v.pending);
    ScopesAreUnique(p.challenges, q.challenges, v.challenges);
    TextsAreUnique(p.consumedIds, q.consumedIds, v.consumedIds);
    TextsAreUnique(p.consumedAttestations, q.consumedAttestations, v.consumedAttestations);
    TextsAreUnique(p.consumedCrossings, q.consumedCrossings, v.consumedCrossings);
    EntriesAreUnique(p.crossingGrants, q.crossingGrants, KeyLess);
    TextsAreUnique(p.toolRegistered, q.toolRegistered, v.tools);
  }

  /** Projections are equal exactly when the states they list agree as maps and sets. */
  lemma ProjectionsAgree(p: Projection, v: S.State, q: Projection, w: S.State)
    requires Projects(p, v) && Projects(q, w)
    ensures p == q <==> v == w
  {
    if v == w {
      SameStateSameProjection(p, q, v);
    }
  }

  // ---- Building the projection ----

  lemma SortedUniqueAscends<E, K(!new)>(xs: seq<E>, key: E -> K, less: (K, K) -> bool)
    requires StrictOrder(less) && Sorted(xs, key, less)
    requires forall i, k | 0 <= i < k < |xs| :: key(xs[i]) != key(xs[k])
    ensures Ascending(xs, key, less)
  {
    forall i, k | 0 <= i < k < |xs| ensures less(key(xs[i]), key(xs[k])) {
      assert !less(key(xs[k]), key(xs[i])) && key(xs[i]) != key(xs[k]);
    }
  }

  /** Sorting keeps members distinct. */
  lemma {:induction false} UniqueByCount<E>(xs: seq<E>)
    ensures Unique(xs) <==> |AsSet(xs)| == |xs|
  {
    hide Unique, AsSet;
    if xs == [] {
      NothingRepeats<E>();
    } else {
      var n := |xs| - 1;
      UniqueByCount(xs[..n]);
      UniqueNext(xs[..n], xs[n]);
      AtMost(xs[..n]);
      assert xs == xs[..n] + [xs[n]];
    }
  }

  lemma NothingRepeats<E>()
    ensures Unique<E>([]) && AsSet<E>([]) == {}
  {
  }

  /** One more element keeps the members distinct exactly if it is new, and counts exactly then. */
  lemma UniqueNext<E>(xs: seq<E>, x: E)
    ensures Unique(xs + [x]) <==> Unique(xs) && x !in AsSet(xs)
    ensures |AsSet(xs + [x])| == |AsSet(xs)| + (if x in AsSet(xs) then 0 else 1)
  {
    assert AsSet(xs + [x]) == AsSet(xs) + {x};
    if x in AsSet(xs) {
      assert AsSet(xs) + {x} == AsSet(xs);
    }
    var ys := xs + [x];
    if Unique(ys) {
      forall i | 0 <= i < |xs| ensures xs[i] != x {
        assert ys[i] != ys[|xs|];
      }
      forall i, k | 0 <= i < k < |xs| ensures xs[i] != xs[k] {
        assert ys[i] != ys[k];
      }
    }
    if Unique(xs) && x !in AsSet(xs) {
      assert forall i | 0 <= i < |xs| :: xs[i] in AsSet(xs);
    }
  }

  lemma PermutationKeepsUnique<E>(xs: seq<E>, ys: seq<E>)
    requires Unique(xs) && |xs| == |ys| && AsSet(xs) == AsSet(ys)
    ensures Unique(ys)
  {
    UniqueByCount(xs);
    UniqueByCount(ys);
  }

  lemma PermutationKeepsKeys<K, V>(es: seq<(K, V)>, fs: seq<(K, V)>)
    requires UniqueKeys(es) && |es| == |fs| && AsSet(es) == AsSet(fs)
    ensures UniqueKeys(fs) && AsMap(fs) == AsMap(es)
  {
    assert Unique(es);
    PermutationKeepsUnique(es, fs);
    forall i, k | 0 <= i < k < |fs| ensures fs[i].0 != fs[k].0 {
      assert fs[i] in AsSet(fs) && fs[k] in AsSet(fs) && fs[i] != fs[k];
      MembersOfMap(es, fs[i].0, fs[i].1);
      MembersOfMap(es, fs[k].0, fs[k].1);
    }
    forall k, v ensures (k, v) in es <==> (k, v) in fs {
      assert (k, v) in AsSet(es) <==> (k, v) in AsSet(fs);
    }
    AsMapEntries(es);
    forall i | 0 <= i < |fs| ensures fs[i].0 in AsMap(es) && AsMap(es)[fs[i].0] == fs[i].1 {
      assert (fs[i].0, fs[i].1) in fs;
      MembersOfMap(es, fs[i].0, fs[i].1);
    }
    forall k | k in AsMap(es) ensures exists i :: 0 <= i < |fs| && fs[i].0 == k {
      StoredValue(es, k);
      assert (k, AsMap(es)[k]) in fs;
      var i :| 0 <= i < |fs| && fs[i] == (k, AsMap(es)[k]);
      assert fs[i].0 == k;
    }
    AsMapIs(fs, AsMap(es));
  }

  method SortTexts(items: seq<Text>) returns (sorted: seq<Text>)
    requires Unique(items)
    ensures TextsListed(sorted, AsSet(items))
  {
    LexOrder();
    sorted := SortBy(items, TextKey(), LexLess);
    PermutationKeepsUnique(items, sorted);
    SortedUniqueAscends(sorted, TextKey(), LexLess);
  }

  method SortTags<T>(items: seq<T>, tag: T -> Byte) returns (sorted: seq<T>)
    requires Unique(items)
    requires forall x, y | x in items && y in items && tag(x) == tag(y) :: x == y
    ensures TagsAscend(sorted, tag) && AsSet(sorted) == AsSet(items) && Unique(sorted)
  {
    ByteOrder();
    sorted := SortBy(items, tag, ByteLess);
    PermutationKeepsUnique(items, sorted);
    forall i, k | 0 <= i < k < |sorted| ensures tag(sorted[i]) != tag(sorted[k]) {
      assert sorted[i] in AsSet(sorted) && sorted[k] in AsSet(sorted) && sorted[i] != sorted[k];
    }
    SortedUniqueAscends(sorted, tag, ByteLess);
  }

  method SortEntries<K(!new), V>(entries: seq<(K, V)>, less: (K, K) -> bool) returns (sorted: seq<(K, V)>)
    requires UniqueKeys(entries) && StrictOrder(less)
    ensures Ascending(sorted, EntryKey(), less) && AsMap(sorted) == AsMap(entries)
    ensures forall e | e in sorted :: e in entries
  {
    sorted := SortBy(entries, EntryKey(), less);
    PermutationKeepsKeys(entries, sorted);
    SortedUniqueAscends(sorted, EntryKey(), less);
    forall e | e in sorted ensures e in entries {
      assert e in AsSet(sorted);
    }
  }

  method SortLevels<T(!new)>(entries: seq<(AgentId, seq<T>)>, tag: T -> Byte) returns (sorted: seq<(AgentId, seq<T>)>)
    requires UniqueKeys(entries) && UniqueValues(entries)
    requires forall x, y :: tag(x) == tag(y) ==> x == y
    ensures LevelsListed(sorted, SetsOf(AsMap(entries)), tag)
  {
    var inner: seq<(AgentId, seq<T>)> := [];
    var i := 0;
    while i < |entries|
      invariant 0 <= i <= |entries| && |inner| == i
      invariant forall k | 0 <= k < i ::
          inner[k].0 == entries[k].0 && AsSet(inner[k].1) == AsSet(entries[k].1) && TagsAscend(inner[k].1, tag)
    {
      assert entries[i] in entries;
      var levels := SortTags(entries[i].1, tag);
      inner := inner + [(entries[i].0, levels)];
      i := i + 1;
    }
    SameSets(entries, inner);
    LexOrder();
    sorted := SortEntries(inner, LexLess);
  }

  /** Rewriting values without changing what they mean changes no meaning. */
  lemma SameImages<K, V, W>(es: seq<(K, V)>, fs: seq<(K, V)>, f: V -> W)
    requires UniqueKeys(es) && |es| == |fs|
    requires forall k | 0 <= k < |es| :: fs[k].0 == es[k].0 && f(fs[k].1) == f(es[k].1)
    ensures UniqueKeys(fs) && AsMap(fs).Keys == AsMap(es).Keys
    ensures forall k | k in AsMap(es) :: f(AsMap(fs)[k]) == f(AsMap(es)[k])
  {
    AsMapEntries(es);
    AsMapEntries(fs);
    forall k | k in AsMap(es) ensures k in AsMap(fs) && f(AsMap(fs)[k]) == f(AsMap(es)[k]) {
      var i :| 0 <= i < |es| && es[i].0 == k;
      assert fs[i].0 == k;
    }
    forall k | k in AsMap(fs) ensures k in AsMap(es) {
      var i :| 0 <= i < |fs| && fs[i].0 == k;
      assert es[i].0 == k;
    }
  }

  lemma SameSets<T>(es: seq<(AgentId, seq<T>)>, fs: seq<(AgentId, seq<T>)>)
    requires UniqueKeys(es) && |es| == |fs|
    requires forall k | 0 <= k < |es| :: fs[k].0 == es[k].0 && AsSet(fs[k].1) == AsSet(es[k].1)
    ensures UniqueKeys(fs) && SetsOf(AsMap(fs)) == SetsOf(AsMap(es))
  {
    var f := (items: seq<T>) => AsSet(items);
    SameImages(es, fs, f);
    assert forall k | k in AsMap(es) :: f(AsMap(fs)[k]) == f(AsMap(es)[k]);
  }

  lemma SameRecords(es: seq<(InvocationId, PendingV)>, fs: seq<(InvocationId, PendingV)>)
    requires UniqueKeys(es) && |es| == |fs|
    requires forall k | 0 <= k < |es| :: fs[k].0 == es[k].0 && PendingOf(fs[k].1) == PendingOf(es[k].1)
    ensures UniqueKeys(fs) && PendingsOf(AsMap(fs)) == PendingsOf(AsMap(es))
  {
    var f := (j: PendingV) => PendingOf(j);
    SameImages(es, fs, f);
    assert forall k | k in AsMap(es) :: f(AsMap(fs)[k]) == f(AsMap(es)[k]);
  }

  lemma SameScopes(es: seq<(InvocationId, ScopeV)>, fs: seq<(InvocationId, ScopeV)>)
    requires UniqueKeys(es) && |es| == |fs|
    requires forall k | 0 <= k < |es| :: fs[k].0 == es[k].0 && ScopeOf(fs[k].1) == ScopeOf(es[k].1)
    ensures UniqueKeys(fs) && ScopesOf(AsMap(fs)) == ScopesOf(AsMap(es))
  {
    var f := (sc: ScopeV) => ScopeOf(sc);
    SameImages(es, fs, f);
    assert forall k | k in AsMap(es) :: f(AsMap(fs)[k]) == f(AsMap(es)[k]);
  }

  lemma TagsAreInjective()
    ensures forall x, y :: CapTag(x) == CapTag(y) ==> x == y
    ensures forall x, y :: EgressTag(x) == EgressTag(y) ==> x == y
    ensures forall x, y :: ConfTag(x) == ConfTag(y) ==> x == y
    ensures forall x, y :: IntegTag(x) == IntegTag(y) ==> x == y
  {
    forall x, y | CapTag(x) == CapTag(y) ensures x == y {
      assert ALL_CAPS[CapTag(x)] == ALL_CAPS[CapTag(y)];
    }
  }

  method ProjectPolicy(p: PolicyV) returns (q: PolicyV)
    requires UniquePolicy(p)
    ensures PolicyListed(q) && PolicyOf(q) == PolicyOf(p)
  {
    TagsAreInjective();
    var caps := SortTags(p.requiredCaps, CapTag);
    var egress := SortTags(p.declaredEgress, EgressTag);
    q := p.(requiredCaps := caps, declaredEgress := egress);
  }

  method ProjectRecords(entries: seq<(InvocationId, PendingV)>) returns (sorted: seq<(InvocationId, PendingV)>)
    requires UniqueKeys(entries) && UniquePendings(entries)
    ensures RecordsListed(sorted, PendingsOf(AsMap(entries)))
  {
    TagsAreInjective();
    var inner: seq<(InvocationId, PendingV)> := [];
    var i := 0;
    while i < |entries|
      invariant 0 <= i <= |entries| && |inner| == i
      invariant forall k | 0 <= k < i ::
          inner[k].0 == entries[k].0 && PendingOf(inner[k].1) == PendingOf(entries[k].1) && RecordListed(inner[k].1)
    {
      assert entries[i] in entries;
      var j := entries[i].1;
      var policy := ProjectPolicy(j.policy);
      var egress := SortTags(j.egress, EgressTag);
      inner := inner + [(entries[i].0, j.(policy := policy, egress := egress))];
      i := i + 1;
    }
    SameRecords(entries, inner);
    LexOrder();
    sorted := SortEntries(inner, LexLess);
  }

  method ProjectScopes(entries: seq<(InvocationId, ScopeV)>) returns (sorted: seq<(InvocationId, ScopeV)>)
    requires UniqueKeys(entries) && UniqueScopes(entries)
    ensures ScopesListed(sorted, ScopesOf(AsMap(entries)))
  {
    TagsAreInjective();
    var inner: seq<(InvocationId, ScopeV)> := [];
    var i := 0;
    while i < |entries|
      invariant 0 <= i <= |entries| && |inner| == i
      invariant forall k | 0 <= k < i ::
          inner[k].0 == entries[k].0 && ScopeOf(inner[k].1) == ScopeOf(entries[k].1) && ScopeListed(inner[k].1)
    {
      assert entries[i] in entries;
      var sc := entries[i].1;
      var policy := ProjectPolicy(sc.policy);
      var egress := SortTags(sc.egress, EgressTag);
      inner := inner + [(entries[i].0, sc.(policy := policy, egress := egress))];
      i := i + 1;
    }
    SameScopes(entries, inner);
    LexOrder();
    sorted := SortEntries(inner, LexLess);
  }

  method FromKernel(s: KernelState) returns (p: Projection)
    requires s.Valid()
    ensures Projects(p, s.View())
  {
    TagsAreInjective();
    LexOrder();
    KeyOrder();
    var agentActive := SortTexts(s.agentActive);
    var agentParent := SortEntries(s.agentParent, LexLess);
    var agentCap := SortLevels(s.agentCap, CapTag);
    var taintLevels := SortLevels(s.taintLevels, ConfTag);
    var integLevels := SortLevels(s.integLevels, IntegTag);
    var pending := ProjectRecords(s.pending);
    var challenges := ProjectScopes(s.challenges);
    var consumedIds := SortTexts(s.consumedIds);
    var consumedAttestations := SortTexts(s.consumedAttestations);
    var consumedCrossings := SortTexts(s.consumedCrossings);
    var crossingGrants := SortEntries(s.crossingGrants, KeyLess);
    var toolRegistered := SortTexts(s.toolRegistered);
    p := Projection(agentActive, agentParent, agentCap, taintLevels, integLevels, pending, challenges,
                    consumedIds, consumedAttestations, consumedCrossings, crossingGrants, toolRegistered);
  }
}
