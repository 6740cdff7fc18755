/**
  Byte strings that can be read back: fixed-width big-endian numbers, length-prefixed texts, tagged
  alternatives, and the canonical order of a set of tags.
*/
module Encoding {
  import opened Types
  import opened Collections
  import opened Sorting

  const TWO_TO_THE_32: int := 0x1_0000_0000

  // ---- Numbers ----

  function BigEndian(n: nat, width: nat): (bytes: seq<Byte>)
    ensures |bytes| == width
  {
    if width == 0 then [] else BigEndian(n / 256, width - 1) + [(n % 256) as Byte]
  }

  /** A run of zero bytes. */
  function Zeros(n: nat): (bytes: seq<Byte>)
    ensures |bytes| == n
  {
    seq(n, _ => 0)
  }

  function FromBigEndian(bytes: seq<Byte>): nat {
    if bytes == [] then 0 else FromBigEndian(bytes[..|bytes| - 1]) * 256 + bytes[|bytes| - 1] as nat
  }

  function Pow256(width: nat): nat {
    if width == 0 then 1 else 256 * Pow256(width - 1)
  }

  lemma {:induction false} BigEndianRoundTrip(n: nat, width: nat)
    requires n < Pow256(width)
    ensures FromBigEndian(BigEndian(n, width)) == n
  {
    if width > 0 {
      var front := BigEndian(n / 256, width - 1);
      BigEndianRoundTrip(n / 256, width - 1);
      assert BigEndian(n, width)[..width - 1] == front;
    }
  }

  lemma Widths()
    ensures Pow256(4) == TWO_TO_THE_32 && Pow256(8) == U64_MAX + 1
  {
    assert Pow256(1) == 256 && Pow256(2) == 65_536 && Pow256(3) == 0x100_0000;
    assert Pow256(5) == 0x100_0000_0000 && Pow256(6) == 0x1_0000_0000_0000 && Pow256(7) == 0x100_0000_0000_0000;
  }

  lemma BigEndianInjective(m: nat, n: nat, width: nat)
    requires m < Pow256(width) && n < Pow256(width) && BigEndian(m, width) == BigEndian(n, width)
    ensures m == n
  {
    BigEndianRoundTrip(m, width);
    BigEndianRoundTrip(n, width);
  }

  // ---- Sets of tags ----

  ghost predicate Increasing(xs: seq<Byte>) {
    forall i, k | 0 <= i < k < |xs| :: xs[i] < xs[k]
  }

  /** The members of `s` below `n`, in increasing order. */
  ghost function ListingBelow(s: set<Byte>, n: nat): (xs: seq<Byte>)
    requires n <= 256
    ensures Increasing(xs) && |xs| <= n
    ensures forall x :: x in xs <==> x in s && x as nat < n
  {
    if n == 0 then []
    else
      var below := ListingBelow(s, n - 1);
      assert forall k | 0 <= k < |below| :: below[k] in below;
      if (n - 1) as Byte in s then below + [(n - 1) as Byte] else below
  }

  ghost function Listing(s: set<Byte>): (xs: seq<Byte>)
    ensures Increasing(xs) && |xs| <= 256 && AsSet(xs) == s
  {
    ListingBelow(s, 256)
  }

  ghost predicate NonDecreasing(xs: seq<Byte>) {
    forall i, k | 0 <= i <= k < |xs| :: xs[i] <= xs[k]
  }

  function ByteKey(): Byte -> Byte {
    (b: Byte) => b
  }

  /** Drop repeated neighbours. */
  method DedupTags(xs: seq<Byte>) returns (ys: seq<Byte>)
    requires NonDecreasing(xs)
    ensures Increasing(ys) && AsSet(ys) == AsSet(xs)
  {
    ys := [];
    var i := 0;
    while i < |xs|
      invariant 0 <= i <= |xs|
      invariant Increasing(ys) && forall x :: x in ys <==> x in xs[..i]
      invariant if i == 0 then ys == [] else ys != [] && ys[|ys| - 1] == xs[i - 1]
    {
      if ys == [] || ys[|ys| - 1] != xs[i] {
        ys := ys + [xs[i]];
      }
      i := i + 1;
    }
    assert xs[..i] == xs;
  }

  /** The sorted, duplicate-free tags of a list depend only on the set it lists. */
  method NormalizeTags(tags: seq<Byte>) returns (normalized: seq<Byte>)
    ensures normalized == Listing(AsSet(tags))
  {
    var a := new Byte[|tags|](i requires 0 <= i < |tags| => tags[i]);
    assert a[..] == tags;
    ByteOrder();
    SortInPlace(a, ByteKey(), ByteLess);
    SameMembers(a[..], tags);
    SortedBytes(a[..]);
    normalized := DedupTags(a[..]);
    IncreasingIsUnique(normalized, Listing(AsSet(tags)));
  }

  lemma SortedBytes(xs: seq<Byte>)
    requires Sorted(xs, ByteKey(), ByteLess)
    ensures NonDecreasing(xs)
  {
    forall i, k | 0 <= i <= k < |xs| ensures xs[i] <= xs[k] {
      if i < k {
        assert !ByteLess(ByteKey()(xs[k]), ByteKey()(xs[i]));
      }
    }
  }

  lemma IncreasingIsUnique(xs: seq<Byte>, ys: seq<Byte>)
    requires Increasing(xs) && Increasing(ys) && AsSet(xs) == AsSet(ys)
    ensures xs == ys
  {
    ByteOrder();
    AscendingIsUnique(xs, ys, ByteKey(), ByteLess);
  }

  // ---- Tokens ----

  /** What a transcript is made of: bytes whose number is fixed by their place, and length-prefixed text. */
  datatype Token = Raw(bytes: seq<Byte>) | Str(text: seq<Byte>)

  /** The length is truncated to 32 bits. */
  function EncodeToken(t: Token): seq<Byte> {
    match t
    case Raw(bytes) => bytes
    case Str(text) => BigEndian(|text| % TWO_TO_THE_32, 4) + text
  }

  function Encode(ts: seq<Token>): seq<Byte> {
    if ts == [] then [] else EncodeToken(ts[0]) + Encode(ts[1..])
  }

  lemma {:induction false} EncodeAppend(ts: seq<Token>, us: seq<Token>)
    ensures Encode(ts + us) == Encode(ts) + Encode(us)
  {
    if ts == [] {
      assert ts + us == us;
    } else {
      assert (ts + us)[1..] == ts[1..] + us;
      EncodeAppend(ts[1..], us);
    }
  }

  lemma EncodeNext(ts: seq<Token>, t: Token)
    ensures Encode(ts + [t]) == Encode(ts) + EncodeToken(t)
  {
    EncodeAppend(ts, [t]);
    assert [t][1..] == [];
    assert EncodeToken(t) + [] == EncodeToken(t);
  }

  /** What may stand at one place of a transcript: a fixed number of bytes, a text, or one tag byte that
      selects what follows. */
  datatype Kind = Fixed(width: nat) | Prefixed | Tagged(cases: seq<seq<Kind>>)

  ghost predicate Fit(ts: seq<Token>, kinds: seq<Kind>)
    decreases |ts|
  {
    if kinds == [] then ts == []
    else
      ts != [] &&
      match kinds[0]
      case Fixed(width) => ts[0].Raw? && |ts[0].bytes| == width && Fit(ts[1..], kinds[1..])
      case Prefixed => ts[0].Str? && |ts[0].text| < TWO_TO_THE_32 && Fit(ts[1..], kinds[1..])
      case Tagged(cases) =>
        && ts[0].Raw? && |ts[0].bytes| == 1
        && ts[0].bytes[0] as int < |cases|
        && Fit(ts[1..], cases[ts[0].bytes[0]] + kinds[1..])
  }

  lemma {:induction false} FitAppend(ts: seq<Token>, us: seq<Token>, ks: seq<Kind>, ls: seq<Kind>)
    requires Fit(ts, ks) && Fit(us, ls)
    ensures Fit(ts + us, ks + ls)
    decreases |ts|
  {
    if ks == [] {
      assert ts + us == us && ks + ls == ls;
    } else {
      assert (ts + us)[1..] == ts[1..] + us && (ks + ls)[1..] == ks[1..] + ls;
      match ks[0]
      case Tagged(cases) =>
        var selected := cases[ts[0].bytes[0]];
        FitAppend(ts[1..], us, selected + ks[1..], ls);
        assert (selected + ks[1..]) + ls == selected + (ks + ls)[1..];
      case _ => FitAppend(ts[1..], us, ks[1..], ls);
    }
  }

  /** Equal strings begin with equal parts of equal length. */
  lemma Split<T>(a: seq<T>, b: seq<T>, c: seq<T>, d: seq<T>)
    requires a + b == c + d && |a| == |c|
    ensures a == c && b == d
  {
    assert a == (a + b)[..|a|] && c == (c + d)[..|c|];
    assert b == (a + b)[|a|..] && d == (c + d)[|c|..];
  }

  lemma TextDecodable(t: seq<Byte>, u: seq<Byte>, r: seq<Byte>, s: seq<Byte>)
    requires |t| < TWO_TO_THE_32 && |u| < TWO_TO_THE_32
    requires BigEndian(|t|, 4) + (t + r) == BigEndian(|u|, 4) + (u + s)
    ensures t == u && r == s
  {
    Split(BigEndian(|t|, 4), t + r, BigEndian(|u|, 4), u + s);
    Widths();
    BigEndianInjective(|t|, |u|, 4);
    Split(t, r, u, s);
  }

  lemma FirstTokenDecodable(t: Token, u: Token, r: seq<Byte>, s: seq<Byte>)
    requires EncodeToken(t) + r == EncodeToken(u) + s
    requires (t.Raw? && u.Raw? && |t.bytes| == |u.bytes|)
          || (t.Str? && u.Str? && |t.text| < TWO_TO_THE_32 && |u.text| < TWO_TO_THE_32)
    ensures t == u && r == s
  {
    if t.Raw? {
      Split(t.bytes, r, u.bytes, s);
    } else {
      TextEncoding(t.text, r);
      TextEncoding(u.text, s);
      TextDecodable(t.text, u.text, r, s);
    }
  }

  lemma TextEncoding(t: seq<Byte>, r: seq<Byte>)
    requires |t| < TWO_TO_THE_32
    ensures EncodeToken(Str(t)) + r == BigEndian(|t|, 4) + (t + r)
  {
    NoTruncation(|t|);
    Associative(BigEndian(|t|, 4), t, r);
  }

  lemma NoTruncation(n: nat)
    requires n < TWO_TO_THE_32
    ensures n % TWO_TO_THE_32 == n
  {
  }

  lemma Associative<T>(a: seq<T>, b: seq<T>, c: seq<T>)
    ensures (a + b) + c == a + (b + c)
  {
  }

  /** The first tokens of two lists of one shape stand for the same thing. */
  lemma FirstDecodable(ts: seq<Token>, us: seq<Token>, kinds: seq<Kind>, r: seq<Byte>, s: seq<Byte>)
    requires kinds != [] && Fit(ts, kinds) && Fit(us, kinds) && Encode(ts) + r == Encode(us) + s
    ensures ts != [] && us != [] && ts[0] == us[0]
    ensures Encode(ts[1..]) + r == Encode(us[1..]) + s
  {
    Associative(EncodeToken(ts[0]), Encode(ts[1..]), r);
    Associative(EncodeToken(us[0]), Encode(us[1..]), s);
    FirstTokenDecodable(ts[0], us[0], Encode(ts[1..]) + r, Encode(us[1..]) + s);
  }

  /** Unique decodability: two token lists of one shape whose encodings agree, whatever follows them,
      are the same list followed by the same bytes. */
  lemma {:induction false} Decodable(ts: seq<Token>, us: seq<Token>, kinds: seq<Kind>, r: seq<Byte>, s: seq<Byte>)
    requires Fit(ts, kinds) && Fit(us, kinds) && Encode(ts) + r == Encode(us) + s
    ensures ts == us && r == s
    decreases |ts|
  {
    if kinds == [] {
      assert [] + r == r && [] + s == s;
    } else {
      FirstDecodable(ts, us, kinds, r, s);
      match kinds[0]
      case Tagged(cases) => Decodable(ts[1..], us[1..], cases[ts[0].bytes[0]] + kinds[1..], r, s);
      case _ => Decodable(ts[1..], us[1..], kinds[1..], r, s);
      assert ts == [ts[0]] + ts[1..] && us == [us[0]] + us[1..];
    }
  }
}
