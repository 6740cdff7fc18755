/**
  Hash chains in general: every node names its predecessor's digest and carries the digest of its own
  transcript. The digest is an arbitrary function, so what one head determines is stated up to an explicit
  collision between two transcripts that were really hashed.
*/
module HashChains {
  import opened Types

  type Digest = d: seq<Byte> | |d| == 32 witness seq(32, _ => 0)

  type Hash = seq<Byte> -> Digest

  datatype Node = Node(previous: Digest, transcript: seq<Byte>, digest: Digest)

  /** The digest that the node after the first `i` must name. */
  ghost function HeadOf(hash: Hash, genesis: seq<Byte>, nodes: seq<Node>): Digest {
    if nodes == [] then hash(genesis) else nodes[|nodes| - 1].digest
  }

  ghost predicate Chained(hash: Hash, genesis: seq<Byte>, nodes: seq<Node>) {
    nodes != [] ==>
      var before, last := nodes[..|nodes| - 1], nodes[|nodes| - 1];
      && Chained(hash, genesis, before)
      && last.previous == HeadOf(hash, genesis, before)
      && last.digest == hash(last.transcript)
  }

  /** Everything that was hashed. */
  ghost function Hashed(genesis: seq<Byte>, nodes: seq<Node>): set<seq<Byte>> {
    {genesis} + set n | n in nodes :: n.transcript
  }

  /** Two different transcripts of the two chains that share a digest. */
  ghost predicate Collision(hash: Hash, g: seq<Byte>, ns: seq<Node>, h: seq<Byte>, ms: seq<Node>) {
    exists x, y | x in Hashed(g, ns) && y in Hashed(h, ms) :: x != y && hash(x) == hash(y)
  }

  /** A transcript tells which digest it names, and no genesis transcript is a node's. */
  ghost predicate Readable(g: seq<Byte>, ns: seq<Node>, h: seq<Byte>, ms: seq<Node>) {
    && (forall n, m | n in ns && m in ms && n.transcript == m.transcript :: n.previous == m.previous)
    && (forall n | n in ns :: n.transcript != h)
    && (forall m | m in ms :: m.transcript != g)
  }

  lemma Collide(hash: Hash, g: seq<Byte>, ns: seq<Node>, h: seq<Byte>, ms: seq<Node>, x: seq<Byte>, y: seq<Byte>)
    requires x in Hashed(g, ns) && y in Hashed(h, ms) && x != y && hash(x) == hash(y)
    ensures Collision(hash, g, ns, h, ms)
  {
  }

  lemma CollisionGrows(hash: Hash, g: seq<Byte>, ns: seq<Node>, h: seq<Byte>, ms: seq<Node>, i: nat, k: nat)
    requires i <= |ns| && k <= |ms| && Collision(hash, g, ns[..i], h, ms[..k])
    ensures Collision(hash, g, ns, h, ms)
  {
    var x, y :| x in Hashed(g, ns[..i]) && y in Hashed(h, ms[..k]) && x != y && hash(x) == hash(y);
    Collide(hash, g, ns, h, ms, x, y);
  }

  ghost function LastTranscript(g: seq<Byte>, ns: seq<Node>): seq<Byte> {
    if ns == [] then g else ns[|ns| - 1].transcript
  }

  /** A head is the digest of something that was hashed. */
  lemma HeadIsHashed(hash: Hash, g: seq<Byte>, ns: seq<Node>)
    requires Chained(hash, g, ns)
    ensures HeadOf(hash, g, ns) == hash(LastTranscript(g, ns)) && LastTranscript(g, ns) in Hashed(g, ns)
  {
    if ns != [] {
      assert ns[|ns| - 1] in ns;
    }
  }

  /** One last transcript: both chains are empty, or neither is and the chains before agree on their heads. */
  lemma SameLast(hash: Hash, g: seq<Byte>, ns: seq<Node>, h: seq<Byte>, ms: seq<Node>)
    requires Chained(hash, g, ns) && Chained(hash, h, ms) && Readable(g, ns, h, ms)
    requires LastTranscript(g, ns) == LastTranscript(h, ms)
    ensures ns == [] <==> ms == []
    ensures ns != [] ==> ns[|ns| - 1] == ms[|ms| - 1]
  {
    if ns != [] {
      assert ns[|ns| - 1] in ns;
    }
    if ms != [] {
      assert ms[|ms| - 1] in ms;
    }
  }

  /** Two chains of any lengths with one head are the same chain, or the two of them hashed two different
      transcripts to one digest. */
  lemma {:induction false} HeadDetermines(hash: Hash, g: seq<Byte>, ns: seq<Node>, h: seq<Byte>, ms: seq<Node>) returns (same: bool)
    requires Chained(hash, g, ns) && Chained(hash, h, ms) && Readable(g, ns, h, ms)
    requires HeadOf(hash, g, ns) == HeadOf(hash, h, ms)
    ensures if same then g == h && ns == ms else Collision(hash, g, ns, h, ms)
    decreases |ns|
  {
    HeadIsHashed(hash, g, ns);
    HeadIsHashed(hash, h, ms);
    same := LastTranscript(g, ns) == LastTranscript(h, ms);
    if !same {
      Collide(hash, g, ns, h, ms, LastTranscript(g, ns), LastTranscript(h, ms));
    } else {
      SameLast(hash, g, ns, h, ms);
      if ns != [] {
        var i, k := |ns| - 1, |ms| - 1;
        same := HeadDetermines(hash, g, ns[..i], h, ms[..k]);
        if same {
          assert ns == ns[..i] + [ns[i]] && ms == ms[..k] + [ms[k]];
        } else {
          CollisionGrows(hash, g, ns, h, ms, i, k);
        }
      }
    }
  }
}
