/**
  In-place sorting by a key under a strict order, and the fact that a set has only one ascending listing.
*/
module Sorting {
  import opened Types
  import opened Collections

  ghost predicate StrictOrder<K(!new)>(less: (K, K) -> bool) {
    && (forall a :: !less(a, a))
    && (forall a, b, c :: less(a, b) && less(b, c) ==> less(a, c))
    && (forall a, b :: a == b || less(a, b) || less(b, a))
  }

  ghost predicate Sorted<E, K>(xs: seq<E>, key: E -> K, less: (K, K) -> bool) {
    forall i, k | 0 <= i < k < |xs| :: !less(key(xs[k]), key(xs[i]))
  }

  ghost predicate Ascending<E, K>(xs: seq<E>, key: E -> K, less: (K, K) -> bool) {
    forall i, k | 0 <= i < k < |xs| :: less(key(xs[i]), key(xs[k]))
  }

  /** Sort in place. */
  method SortInPlace<E, K(!new)>(a: array<E>, key: E -> K, less: (K, K) -> bool)
    requires StrictOrder(less)
    modifies a
    ensures Sorted(a[..], key, less) && multiset(a[..]) == multiset(old(a[..]))
  {
    var i := 0;
    while i < a.Length
      invariant 0 <= i <= a.Length
      invariant Sorted(a[..i], key, less) && multiset(a[..]) == multiset(old(a[..]))
    {
      Sink(a, i, key, less);
      i := i + 1;
    }
    assert a[..i] == a[..];
  }

  /** Move the element at `i` down into the sorted part below it. */
  method Sink<E, K(!new)>(a: array<E>, i: nat, key: E -> K, less: (K, K) -> bool)
    requires i < a.Length && StrictOrder(less) && Sorted(a[..i], key, less)
    modifies a
    ensures Sorted(a[..i + 1], key, less) && multiset(a[..]) == multiset(old(a[..]))
  {
    var j := i;
    while j > 0 && less(key(a[j]), key(a[j - 1]))
      invariant 0 <= j <= i
      invariant forall x, y | 0 <= x < y <= i && x != j && y != j :: !less(key(a[y]), key(a[x]))
      invariant forall y | j < y <= i :: !less(key(a[y]), key(a[j]))
      invariant multiset(a[..]) == multiset(old(a[..]))
    {
      a[j - 1], a[j] := a[j], a[j - 1];
      j := j - 1;
    }
  }

  /** A sorted copy. */
  method SortBy<E, K(!new)>(items: seq<E>, key: E -> K, less: (K, K) -> bool) returns (sorted: seq<E>)
    requires StrictOrder(less)
    ensures Sorted(sorted, key, less) && multiset(sorted) == multiset(items)
    ensures |sorted| == |items| && AsSet(sorted) == AsSet(items)
  {
    var a := new E[|items|](i requires 0 <= i < |items| => items[i]);
    assert a[..] == items;
    SortInPlace(a, key, less);
    sorted := a[..];
    SameMembers(sorted, items);
  }

  lemma SameMembers<E>(xs: seq<E>, ys: seq<E>)
    requires multiset(xs) == multiset(ys)
    ensures |xs| == |ys| && AsSet(xs) == AsSet(ys)
  {
    assert |multiset(xs)| == |xs| && |multiset(ys)| == |ys|;
    forall x ensures x in xs <==> x in ys {
      assert x in xs <==> x in multiset(xs);
      assert x in ys <==> x in multiset(ys);
    }
  }

  /** There is only one ascending list of a set. */
  lemma {:induction false} AscendingIsUnique<E, K(!new)>(xs: seq<E>, ys: seq<E>, key: E -> K, less: (K, K) -> bool)
    requires StrictOrder(less) && Ascending(xs, key, less) && Ascending(ys, key, less) && AsSet(xs) == AsSet(ys)
    ensures xs == ys
    decreases |xs|
  {
    NoMembers(xs);
    NoMembers(ys);
    if xs != [] && ys != [] {
      var x, y := xs[|xs| - 1], ys[|ys| - 1];
      assert x in AsSet(xs) && x in ys && y in AsSet(ys) && y in xs;
      assert x == y;
      var xs', ys' := xs[..|xs| - 1], ys[..|ys| - 1];
      ButLast(xs, key, less);
      ButLast(ys, key, less);
      AscendingIsUnique(xs', ys', key, less);
      assert xs == xs' + [x] && ys == ys' + [y];
    }
  }

  lemma ButLast<E, K(!new)>(xs: seq<E>, key: E -> K, less: (K, K) -> bool)
    requires StrictOrder(less) && Ascending(xs, key, less) && xs != []
    ensures Ascending(xs[..|xs| - 1], key, less) && AsSet(xs[..|xs| - 1]) == AsSet(xs) - {xs[|xs| - 1]}
  {
    var n := |xs| - 1;
    forall x ensures x in xs[..n] <==> x in xs && x != xs[n] {
    }
  }

  lemma NoMembers<T>(xs: seq<T>)
    ensures AsSet(xs) == {} <==> xs == []
  {
    if xs != [] {
      assert xs[0] in AsSet(xs);
    }
  }

  // ---- Byte strings ----

  /** Lexicographic order of bytes. */
  predicate LexLess(a: seq<Byte>, b: seq<Byte>)
    decreases |a|
  {
    if b == [] then false
    else if a == [] then true
    else if a[0] != b[0] then a[0] < b[0]
    else LexLess(a[1..], b[1..])
  }

  lemma {:induction false} LexIrreflexive(a: seq<Byte>)
    ensures !LexLess(a, a)
    decreases |a|
  {
    if a != [] {
      LexIrreflexive(a[1..]);
    }
  }

  lemma {:induction false} LexTransitive(a: seq<Byte>, b: seq<Byte>, c: seq<Byte>)
    requires LexLess(a, b) && LexLess(b, c)
    ensures LexLess(a, c)
    decreases |a|
  {
    if a != [] && a[0] == b[0] && b[0] == c[0] {
      LexTransitive(a[1..], b[1..], c[1..]);
    }
  }

  lemma {:induction false} LexTotal(a: seq<Byte>, b: seq<Byte>)
    ensures a == b || LexLess(a, b) || LexLess(b, a)
    decreases |a|
  {
    if a != [] && b != [] && a[0] == b[0] {
      LexTotal(a[1..], b[1..]);
      assert a == [a[0]] + a[1..] && b == [b[0]] + b[1..];
    }
  }

  lemma LexOrder()
    ensures StrictOrder(LexLess)
  {
    forall a ensures !LexLess(a, a) { LexIrreflexive(a); }
    forall a, b, c | LexLess(a, b) && LexLess(b, c) ensures LexLess(a, c) { LexTransitive(a, b, c); }
    forall a, b ensures a == b || LexLess(a, b) || LexLess(b, a) { LexTotal(a, b); }
  }

  /** `a` and `b` first differ at `k`, where `a` ends or has the smaller byte. */
  ghost predicate LessAt(a: seq<Byte>, b: seq<Byte>, k: int) {
    0 <= k < |b| && k <= |a| && a[..k] == b[..k] && (k == |a| || a[k] < b[k])
  }

  /** One text comes before another exactly if it is a proper prefix, or has the smaller byte where they first
      differ. */
  lemma {:induction false} LexCompares(a: seq<Byte>, b: seq<Byte>)
    ensures LexLess(a, b) <==> exists k :: LessAt(a, b, k)
    decreases |a|
  {
    if a == [] {
      assert b != [] ==> LessAt(a, b, 0);
    } else if b != [] {
      if a[0] == b[0] {
        LexCompares(a[1..], b[1..]);
        if k :| LessAt(a[1..], b[1..], k) {
          LessLater(a, b, k);
        }
        if k :| LessAt(a, b, k) {
          assert k > 0;
          LessSooner(a, b, k);
        }
      } else {
        assert a[0] < b[0] ==> LessAt(a, b, 0);
        assert forall k | LessAt(a, b, k) :: k > 0 ==> a[..k][0] == b[..k][0];
      }
    }
  }

  lemma LessLater(a: seq<Byte>, b: seq<Byte>, k: int)
    requires a != [] && b != [] && a[0] == b[0] && LessAt(a[1..], b[1..], k)
    ensures LessAt(a, b, k + 1)
  {
    assert a[..k + 1] == [a[0]] + a[1..][..k] && b[..k + 1] == [b[0]] + b[1..][..k];
  }

  lemma LessSooner(a: seq<Byte>, b: seq<Byte>, k: int)
    requires a != [] && b != [] && k > 0 && LessAt(a, b, k)
    ensures LessAt(a[1..], b[1..], k - 1)
  {
    assert a[1..][..k - 1] == a[..k][1..] && b[1..][..k - 1] == b[..k][1..];
  }

  predicate ByteLess(a: Byte, b: Byte) {
    a < b
  }

  predicate KeyLess(a: CrossingKey, b: CrossingKey) {
    LexLess(a.agent, b.agent) || (a.agent == b.agent && LexLess(a.assignment, b.assignment))
  }

  lemma ByteOrder()
    ensures StrictOrder(ByteLess)
  {
  }

  lemma KeyOrder()
    ensures StrictOrder(KeyLess)
  {
    forall a ensures !KeyLess(a, a) {
      LexIrreflexive(a.agent);
      LexIrreflexive(a.assignment);
    }
    forall a, b, c | KeyLess(a, b) && KeyLess(b, c) ensures KeyLess(a, c) {
      KeyTransitive(a, b, c);
    }
    forall a, b ensures a == b || KeyLess(a, b) || KeyLess(b, a) {
      LexTotal(a.agent, b.agent);
      LexTotal(a.assignment, b.assignment);
    }
  }

  lemma KeyTransitive(a: CrossingKey, b: CrossingKey, c: CrossingKey)
    requires KeyLess(a, b) && KeyLess(b, c)
    ensures KeyLess(a, c)
  {
    if LexLess(a.agent, b.agent) && LexLess(b.agent, c.agent) {
      LexTransitive(a.agent, b.agent, c.agent);
    } else if a.agent == b.agent == c.agent {
      LexTransitive(a.assignment, b.assignment, c.assignment);
    }
  }
}
