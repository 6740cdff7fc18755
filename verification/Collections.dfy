/**
  The Vec-backed finite map and set: index loops with latched flags, last-match lookup and
  clone-and-rebuild removal, proved to be maps and sets whose traversal visits each entry once.

  A set stored as the value of a map is the item sequence of a `VecSet`, which is what cloning the
  set out of the map yields and what storing it back keeps.
*/
module Collections {
  import opened Types

  // ---- What the vectors mean ----

  ghost predicate Unique<T>(items: seq<T>) {
    forall i, k | 0 <= i < k < |items| :: items[i] != items[k]
  }

  ghost function AsSet<T>(items: seq<T>): set<T> {
    set x | x in items
  }

  ghost predicate UniqueKeys<K, V>(entries: seq<(K, V)>) {
    forall i, k | 0 <= i < k < |entries| :: entries[i].0 != entries[k].0
  }

  /** Later entries win. */
  ghost function AsMap<K, V>(entries: seq<(K, V)>): map<K, V> {
    if entries == [] then map[]
    else
      var (k, v) := entries[|entries| - 1];
      AsMap(entries[..|entries| - 1])[k := v]
  }

  /** With unique keys every entry is looked up at its own key, and nothing else is. */
  lemma {:induction false} AsMapEntries<K, V>(entries: seq<(K, V)>)
    requires UniqueKeys(entries)
    ensures forall i | 0 <= i < |entries| :: entries[i].0 in AsMap(entries) && AsMap(entries)[entries[i].0] == entries[i].1
    ensures forall k | k in AsMap(entries) :: exists i :: 0 <= i < |entries| && entries[i].0 == k
    ensures |AsMap(entries)| == |entries|
  {
    if entries != [] {
      var n := |entries| - 1;
      AsMapEntries(entries[..n]);
      var (k, v) := entries[n];
      assert AsMap(entries) == AsMap(entries[..n])[k := v];
      forall i | 0 <= i < |entries|
        ensures entries[i].0 in AsMap(entries) && AsMap(entries)[entries[i].0] == entries[i].1
      {
        if i < n {
          assert entries[..n][i] == entries[i];
        }
      }
      forall x | x in AsMap(entries) ensures exists i :: 0 <= i < |entries| && entries[i].0 == x {
        if x != k {
          var i :| 0 <= i < n && entries[..n][i].0 == x;
          assert entries[i].0 == x;
        } else {
          assert entries[n].0 == x;
        }
      }
      assert k !in AsMap(entries[..n]);
    }
  }

  /** Maps agree with entry sequences when they hold the same bindings. */
  lemma AsMapIs<K, V>(entries: seq<(K, V)>, m: map<K, V>)
    requires UniqueKeys(entries)
    requires forall i | 0 <= i < |entries| :: entries[i].0 in m && m[entries[i].0] == entries[i].1
    requires forall k | k in m :: exists i :: 0 <= i < |entries| && entries[i].0 == k
    ensures AsMap(entries) == m
  {
    AsMapEntries(entries);
  }

  /** Overwriting the entry of a key, or appending one for a new key, updates the map. */
  lemma PutEntry<K, V>(entries: seq<(K, V)>, idx: nat, key: K, value: V)
    requires UniqueKeys(entries) && idx <= |entries|
    requires if idx < |entries| then entries[idx].0 == key else forall i | 0 <= i < |entries| :: entries[i].0 != key
    ensures var after := if idx < |entries| then entries[idx := (key, value)] else entries + [(key, value)];
            UniqueKeys(after) && AsMap(after) == AsMap(entries)[key := value]
  {
    hide AsMap;
    var after := if idx < |entries| then entries[idx := (key, value)] else entries + [(key, value)];
    var m := AsMap(entries)[key := value];
    AsMapEntries(entries);
    forall k | k in m ensures exists i :: 0 <= i < |after| && after[i].0 == k {
      if k == key {
        assert after[idx].0 == k;
      } else {
        var i :| 0 <= i < |entries| && entries[i].0 == k;
        assert after[i].0 == k;
      }
    }
    AsMapIs(after, m);
  }

  /** The bindings that satisfy a test, in order. */
  ghost function Keep<K, V>(entries: seq<(K, V)>, keep: (K, V) -> bool): seq<(K, V)> {
    if entries == [] then []
    else
      var n := |entries| - 1;
      Keep(entries[..n], keep) + (if keep(entries[n].0, entries[n].1) then [entries[n]] else [])
  }

  lemma {:induction false} KeepEntries<K, V>(entries: seq<(K, V)>, keep: (K, V) -> bool)
    requires UniqueKeys(entries)
    ensures UniqueKeys(Keep(entries, keep))
    ensures forall e | e in Keep(entries, keep) :: e in entries && keep(e.0, e.1)
    ensures forall e | e in entries && keep(e.0, e.1) :: e in Keep(entries, keep)
  {
    if entries != [] {
      var n := |entries| - 1;
      KeepEntries(entries[..n], keep);
      var kept := Keep(entries[..n], keep);
      forall i | 0 <= i < |kept| ensures kept[i].0 != entries[n].0 {
        assert kept[i] in kept;
      }
      assert entries == entries[..n] + [entries[n]];
    }
  }

  lemma KeepIs<K, V>(entries: seq<(K, V)>, keep: (K, V) -> bool)
    requires UniqueKeys(entries)
    ensures UniqueKeys(Keep(entries, keep))
    ensures AsMap(Keep(entries, keep)) == map k | k in AsMap(entries) && keep(k, AsMap(entries)[k]) :: AsMap(entries)[k]
  {
    var kept := Keep(entries, keep);
    var m := map k | k in AsMap(entries) && keep(k, AsMap(entries)[k]) :: AsMap(entries)[k];
    KeepEntries(entries, keep);
    AsMapEntries(entries);
    forall i | 0 <= i < |kept| ensures kept[i].0 in m && m[kept[i].0] == kept[i].1 {
      assert kept[i] in kept;
    }
    forall k | k in m ensures exists i :: 0 <= i < |kept| && kept[i].0 == k {
      var i :| 0 <= i < |entries| && entries[i].0 == k;
      assert entries[i] in kept;
    }
    AsMapIs(kept, m);
  }

  lemma KeepNext<K, V>(entries: seq<(K, V)>, i: nat, keep: (K, V) -> bool)
    requires i < |entries|
    ensures AsMap(Keep(entries[..i + 1], keep)) ==
            if keep(entries[i].0, entries[i].1) then AsMap(Keep(entries[..i], keep))[entries[i].0 := entries[i].1]
            else AsMap(Keep(entries[..i], keep))
  {
    assert entries[..i + 1][..i] == entries[..i];
    var kept := Keep(entries[..i], keep);
    assert (kept + [entries[i]])[..|kept|] == kept;
    assert kept + [] == kept;
  }

  /** Every binding, with its value rewritten. */
  ghost function Rewrite<K, V>(entries: seq<(K, V)>, f: V -> V): seq<(K, V)> {
    seq(|entries|, i requires 0 <= i < |entries| => (entries[i].0, f(entries[i].1)))
  }

  lemma RewriteIs<K, V>(entries: seq<(K, V)>, f: V -> V)
    requires UniqueKeys(entries)
    ensures UniqueKeys(Rewrite(entries, f))
    ensures AsMap(Rewrite(entries, f)) == map k | k in AsMap(entries) :: f(AsMap(entries)[k])
  {
    AsMapEntries(entries);
    var m := map k | k in AsMap(entries) :: f(AsMap(entries)[k]);
    forall k | k in m ensures exists i :: 0 <= i < |entries| && Rewrite(entries, f)[i].0 == k {
      var i :| 0 <= i < |entries| && entries[i].0 == k;
      assert Rewrite(entries, f)[i].0 == k;
    }
    AsMapIs(Rewrite(entries, f), m);
  }

  lemma RewriteNext<K, V>(entries: seq<(K, V)>, i: nat, f: V -> V)
    requires i < |entries|
    ensures AsMap(Rewrite(entries[..i + 1], f)) == AsMap(Rewrite(entries[..i], f))[entries[i].0 := f(entries[i].1)]
  {
    assert Rewrite(entries[..i + 1], f)[..i] == Rewrite(entries[..i], f);
  }

  // ---- VecSet ----

  class VecSet<T(==)> {
    var items: seq<T>

    ghost predicate Valid()
      reads this
    {
      Unique(items)
    }

    constructor ()
      ensures items == []
    {
      items := [];
    }

    /** A clone: a distinct set with the same items. */
    constructor Clone(source: seq<T>)
      ensures items == source
    {
      items := source;
    }

    method Len() returns (n: nat)
      ensures n == |items|
      ensures Unique(items) ==> n == |AsSet(items)|
    {
      n := |items|;
      CardinalityIfUnique(items);
    }

    method IsEmpty() returns (empty: bool)
      ensures empty <==> AsSet(items) == {}
    {
      empty := |items| == 0;
      if !empty {
        assert items[0] in AsSet(items);
      }
    }

    method Contains(x: T) returns (found: bool)
      ensures found <==> x in AsSet(items)
    {
      found := false;
      var i := 0;
      while i < |items|
        invariant 0 <= i <= |items|
        invariant found <==> x in items[..i]
      {
        if items[i] == x {
          found := true;
        }
        i := i + 1;
      }
      assert items[..i] == items;
    }

    /** Insert if absent. */
    method Insert(x: T)
      requires Valid()
      modifies this
      ensures Valid()
      ensures items == if x in old(items) then old(items) else old(items) + [x]
      ensures AsSet(items) == old(AsSet(items)) + {x}
    {
      var found := Contains(x);
      if !found {
        items := items + [x];
      }
    }

    /** Rebuild without `x`. */
    method Remove(x: T)
      requires Valid()
      modifies this
      ensures Valid()
      ensures AsSet(items) == old(AsSet(items)) - {x}
      ensures |items| <= |old(items)|
    {
      var kept: seq<T> := [];
      var i := 0;
      while i < |items|
        invariant 0 <= i <= |items| && items == old(items)
        invariant |kept| <= i && Unique(kept)
        invariant forall y :: y in kept <==> y in items[..i] && y != x
      {
        if items[i] != x {
          assert items[i] !in items[..i];
          kept := kept + [items[i]];
        }
        i := i + 1;
      }
      assert items[..i] == items;
      items := kept;
    }

    method At(i: nat) returns (x: T)
      requires i < |items|
      ensures x == items[i]
    {
      x := items[i];
    }

    /** In-place union. */
    method UnionWith(other: VecSet<T>)
      requires Valid() && other != this
      modifies this
      ensures Valid()
      ensures AsSet(items) == old(AsSet(items)) + AsSet(other.items)
    {
      var i := 0;
      while i < |other.items|
        invariant 0 <= i <= |other.items| && other.items == old(other.items)
        invariant Valid()
        invariant AsSet(items) == old(AsSet(items)) + AsSet(other.items[..i])
      {
        assert other.items[..i + 1] == other.items[..i] + [other.items[i]];
        assert AsSet(other.items[..i + 1]) == AsSet(other.items[..i]) + {other.items[i]};
        Insert(other.items[i]);
        i := i + 1;
      }
      assert other.items[..i] == other.items;
    }
  }

  lemma {:induction false} UniqueCardinality<T>(items: seq<T>)
    requires Unique(items)
    ensures |AsSet(items)| == |items|
  {
    if items != [] {
      var n := |items| - 1;
      UniqueCardinality(items[..n]);
      assert AsSet(items) == AsSet(items[..n]) + {items[n]};
      assert items[n] !in items[..n];
    }
  }

  lemma {:induction false} AtMost<T>(xs: seq<T>)
    ensures |AsSet(xs)| <= |xs|
  {
    if xs != [] {
      var n := |xs| - 1;
      AtMost(xs[..n]);
      assert AsSet(xs) == AsSet(xs[..n]) + {xs[n]};
    }
  }

  lemma CardinalityIfUnique<T>(items: seq<T>)
    ensures Unique(items) ==> |AsSet(items)| == |items|
  {
    if Unique(items) {
      UniqueCardinality(items);
    }
  }

  /** Collect a list into the items of a set, dropping duplicates. */
  method Collect<T(==)>(values: seq<T>) returns (items: seq<T>)
    ensures Unique(items) && AsSet(items) == AsSet(values)
  {
    var s := new VecSet<T>();
    var i := 0;
    while i < |values|
      invariant 0 <= i <= |values|
      invariant fresh(s) && s.Valid() && AsSet(s.items) == AsSet(values[..i])
    {
      s.Insert(values[i]);
      i := i + 1;
    }
    assert values[..i] == values;
    items := s.items;
  }

  // ---- VecMap ----

  class VecMap<K(==), V> {
    var entries: seq<(K, V)>

    ghost predicate Valid()
      reads this
    {
      UniqueKeys(entries)
    }

    constructor ()
      ensures entries == []
    {
      entries := [];
    }

    constructor Clone(source: seq<(K, V)>)
      ensures entries == source
    {
      entries := source;
    }

    method Len() returns (n: nat)
      requires Valid()
      ensures n == |entries| == |AsMap(entries)|
    {
      AsMapEntries(entries);
      n := |entries|;
    }

    /** The scan shared by every lookup: the last matching index, or the length. */
    method Find(key: K) returns (idx: nat)
      ensures idx <= |entries|
      ensures idx < |entries| ==> entries[idx].0 == key
      ensures forall k | idx < k < |entries| :: entries[k].0 != key
      ensures idx == |entries| ==> forall k | 0 <= k < |entries| :: entries[k].0 != key
    {
      idx := |entries|;
      var i := 0;
      while i < |entries|
        invariant 0 <= i <= |entries|
        invariant idx == |entries| || (idx < i && entries[idx].0 == key)
        invariant forall k | 0 <= k < i && (idx == |entries| || idx < k) :: entries[k].0 != key
      {
        if entries[i].0 == key {
          idx := i;
        }
        i := i + 1;
      }
    }

    method ContainsKey(key: K) returns (found: bool)
      requires Valid()
      ensures found <==> key in AsMap(entries)
    {
      found := false;
      var i := 0;
      while i < |entries|
        invariant 0 <= i <= |entries|
        invariant found <==> exists k :: 0 <= k < i && entries[k].0 == key
      {
        if entries[i].0 == key {
          found := true;
        }
        i := i + 1;
      }
      AsMapEntries(entries);
    }

    method GetCloned(key: K) returns (r: Option<V>)
      requires Valid()
      ensures r == if key in AsMap(entries) then Some(AsMap(entries)[key]) else None
    {
      var idx := Find(key);
      AsMapEntries(entries);
      r := if idx < |entries| then Some(entries[idx].1) else None;
    }

    /** Insert or replace in place. */
    method Insert(key: K, value: V)
      requires Valid()
      modifies this
      ensures Valid()
      ensures AsMap(entries) == old(AsMap(entries))[key := value]
      ensures forall e | e in entries :: e in old(entries) || e == (key, value)
    {
      var idx := Find(key);
      PutEntry(entries, idx, key, value);
      if idx < |entries| {
        entries := entries[idx := (key, value)];
      } else {
        entries := entries + [(key, value)];
      }
    }

    /** Rebuild without the entry for `key`. */
    method Remove(key: K)
      requires Valid()
      modifies this
      ensures Valid()
      ensures AsMap(entries) == old(AsMap(entries)) - {key}
      ensures forall e | e in entries :: e in old(entries)
    {
      ghost var keep := (k: K, v: V) => k != key;
      var kept: seq<(K, V)> := [];
      var i := 0;
      while i < |entries|
        invariant 0 <= i <= |entries| && entries == old(entries)
        invariant kept == Keep(entries[..i], keep)
      {
        assert entries[..i + 1][..i] == entries[..i];
        if entries[i].0 != key {
          kept := kept + [entries[i]];
        }
        i := i + 1;
      }
      assert entries[..i] == entries;
      KeepEntries(entries, keep);
      KeepIs(entries, keep);
      entries := kept;
    }

    /** The key at position `i` is bound, to the value stored beside it. */
    method KeyAt(i: nat) returns (key: K)
      requires Valid() && i < |entries|
      ensures key == entries[i].0
      ensures key in AsMap(entries) && AsMap(entries)[key] == entries[i].1
    {
      AsMapEntries(entries);
      key := entries[i].0;
    }
  }

  // ---- Maps whose values are sets ----

  ghost function SetsOf<K, T>(m: map<K, seq<T>>): map<K, set<T>> {
    map k | k in m :: AsSet(m[k])
  }

  ghost predicate UniqueValues<K, T>(entries: seq<(K, seq<T>)>) {
    forall e | e in entries :: Unique(e.1)
  }

  lemma SetsOfInsert<K, T>(m: map<K, seq<T>>, key: K, items: seq<T>)
    ensures SetsOf(m[key := items]) == SetsOf(m)[key := AsSet(items)]
  {
  }

  /** The elements stored at `key`; none if absent. */
  ghost function SetAt<K, T>(m: map<K, seq<T>>, key: K): set<T> {
    if key in m then AsSet(m[key]) else {}
  }

  /** Insert `elem` into the set at `key`, creating the set if absent. */
  method InsertInto<K(==), T(==)>(m: VecMap<K, seq<T>>, key: K, elem: T)
    requires m.Valid() && UniqueValues(m.entries)
    modifies m
    ensures m.Valid() && UniqueValues(m.entries)
    ensures SetsOf(AsMap(m.entries)) ==
            SetsOf(old(AsMap(m.entries)))[key := SetAt(old(AsMap(m.entries)), key) + {elem}]
  {
    var idx := m.Find(key);
    AsMapEntries(m.entries);
    var s: VecSet<T>;
    if idx < |m.entries| {
      assert m.entries[idx] in m.entries;
      s := new VecSet<T>.Clone(m.entries[idx].1);
    } else {
      s := new VecSet<T>();
    }
    assert AsSet(s.items) == SetAt(AsMap(m.entries), key);
    s.Insert(elem);
    SetsOfInsert(AsMap(m.entries), key, s.items);
    m.Insert(key, s.items);
  }

  // ---- Borrowing a collection that is stored in a place ----
  // Each method runs one operation on the collection held as a vector, and yields the answer or the
  // vector that the place holds afterwards.

  method SetContains<T(==)>(items: seq<T>, x: T) returns (found: bool)
    ensures found <==> x in AsSet(items)
  {
    var s := new VecSet<T>.Clone(items);
    found := s.Contains(x);
  }

  method SetInsert<T(==)>(items: seq<T>, x: T) returns (after: seq<T>)
    requires Unique(items)
    ensures Unique(after) && AsSet(after) == AsSet(items) + {x}
  {
    var s := new VecSet<T>.Clone(items);
    s.Insert(x);
    after := s.items;
  }

  method SetRemove<T(==)>(items: seq<T>, x: T) returns (after: seq<T>)
    requires Unique(items)
    ensures Unique(after) && AsSet(after) == AsSet(items) - {x}
  {
    var s := new VecSet<T>.Clone(items);
    s.Remove(x);
    after := s.items;
  }

  method MapContains<K(==), V>(entries: seq<(K, V)>, key: K) returns (found: bool)
    requires UniqueKeys(entries)
    ensures found <==> key in AsMap(entries)
  {
    var m := new VecMap<K, V>.Clone(entries);
    found := m.ContainsKey(key);
  }

  method MapGet<K(==), V>(entries: seq<(K, V)>, key: K) returns (r: Option<V>)
    requires UniqueKeys(entries)
    ensures r == if key in AsMap(entries) then Some(AsMap(entries)[key]) else None
  {
    var m := new VecMap<K, V>.Clone(entries);
    r := m.GetCloned(key);
  }

  /** One step of a traversal: the key at position `i`, then a lookup of that key. It meets exactly the
      entry stored at `i`. */
  method MapVisit<K(==), V>(entries: seq<(K, V)>, i: nat) returns (key: K, value: Option<V>)
    requires UniqueKeys(entries) && i < |entries|
    ensures key == entries[i].0 && value == Some(entries[i].1)
  {
    var m := new VecMap<K, V>.Clone(entries);
    key := m.KeyAt(i);
    value := m.GetCloned(key);
  }

  method MapInsert<K(==), V>(entries: seq<(K, V)>, key: K, value: V) returns (after: seq<(K, V)>)
    requires UniqueKeys(entries)
    ensures UniqueKeys(after) && AsMap(after) == AsMap(entries)[key := value]
    ensures forall e | e in after :: e in entries || e == (key, value)
  {
    var m := new VecMap<K, V>.Clone(entries);
    m.Insert(key, value);
    after := m.entries;
  }

  method MapRemove<K(==), V>(entries: seq<(K, V)>, key: K) returns (after: seq<(K, V)>)
    requires UniqueKeys(entries)
    ensures UniqueKeys(after) && AsMap(after) == AsMap(entries) - {key}
    ensures forall e | e in after :: e in entries
  {
    var m := new VecMap<K, V>.Clone(entries);
    m.Remove(key);
    after := m.entries;
  }

  method MapInsertInto<K(==), T(==)>(entries: seq<(K, seq<T>)>, key: K, elem: T) returns (after: seq<(K, seq<T>)>)
    requires UniqueKeys(entries) && UniqueValues(entries)
    ensures UniqueKeys(after) && UniqueValues(after)
    ensures SetsOf(AsMap(after)) == SetsOf(AsMap(entries))[key := SetAt(AsMap(entries), key) + {elem}]
  {
    var m := new VecMap<K, seq<T>>.Clone(entries);
    InsertInto(m, key, elem);
    after := m.entries;
  }

  method MapRemoveSet<K(==), T(==)>(entries: seq<(K, seq<T>)>, key: K) returns (after: seq<(K, seq<T>)>)
    requires UniqueKeys(entries) && UniqueValues(entries)
    ensures UniqueKeys(after) && UniqueValues(after)
    ensures SetsOf(AsMap(after)) == SetsOf(AsMap(entries)) - {key}
  {
    after := MapRemove(entries, key);
  }

  /** The set at `key`, or the empty set, as an owned copy. */
  method MapGetSet<K(==), T(==)>(entries: seq<(K, seq<T>)>, key: K) returns (items: seq<T>)
    requires UniqueKeys(entries) && UniqueValues(entries)
    ensures Unique(items) && AsSet(items) == SetAt(AsMap(entries), key)
  {
    AsMapEntries(entries);
    var found := MapGet(entries, key);
    items := [];
    if found.Some? {
      var i :| 0 <= i < |entries| && entries[i].0 == key;
      assert entries[i] in entries;
      items := found.value;
    }
  }

  method MapSetContains<K(==), T(==)>(entries: seq<(K, seq<T>)>, key: K, elem: T) returns (found: bool)
    requires UniqueKeys(entries)
    ensures found <==> elem in SetAt(AsMap(entries), key)
  {
    var items := MapGet(entries, key);
    found := false;
    if items.Some? {
      found := SetContains(items.value, elem);
    }
  }
}
