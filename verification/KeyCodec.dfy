/**
 * Key codecs and the multi-part codecs built from them (`collections/pair.go`, `triple.go`,
 * `quad.go`). Every operation exists in a terminal form, for a key that ends the buffer, and in
 * a non-terminal form, for a key that more bytes follow.
 */
module KeyCodec {
  import opened Bytes
  import opened Options

  /** A failed encoding or decoding gives `None`; decoding also tells how many bytes it read. */
  datatype Codec<!K> = Codec(
    encode: (bool, K) -> Option<Key>,
    decode: (bool, Key) -> Option<(nat, K)>,
    size: (bool, K) -> nat)

  /** `Size` announces the number of bytes written, also for keys with missing parts. */
  ghost predicate SizeExact<K(!new)>(c: Codec<K>) {
    forall terminal, k :: c.encode(terminal, k).Some? ==>
      |c.encode(terminal, k).value| == c.size(terminal, k)
  }

  ghost predicate RoundTrips<K(!new)>(c: Codec<K>, complete: K -> bool) {
    forall k :: complete(k) && c.encode(true, k).Some? ==>
      var bytes := c.encode(true, k).value;
      c.decode(true, bytes) == Some((|bytes|, k))
  }

  /** A non-terminal key is recognised, and its end found, whatever bytes follow it. */
  ghost predicate SelfDelimiting<K(!new)>(c: Codec<K>, complete: K -> bool) {
    forall k, rest :: complete(k) && c.encode(false, k).Some? ==>
      c.decode(false, c.encode(false, k).value + rest) == Some((|c.encode(false, k).value|, k))
  }

  /** The laws of a codec; `complete` singles out the keys that have all their parts. */
  ghost predicate Lawful<K(!new)>(c: Codec<K>, complete: K -> bool) {
    SizeExact(c) && RoundTrips(c, complete) && SelfDelimiting(c, complete)
  }

  /** A self-delimiting key cannot be the beginning of bytes that start with another key. */
  lemma LeadingKey<K(!new)>(c: Codec<K>, complete: K -> bool, k: K, k': K, rest: Key)
    requires SelfDelimiting(c, complete) && complete(k) && complete(k')
    requires c.encode(false, k).Some? && c.encode(false, k').Some?
    ensures c.encode(false, k).value <= c.encode(false, k').value + rest ==> k == k'
  {
    var bytes, bytes' := c.encode(false, k).value, c.encode(false, k').value + rest;
    if bytes <= bytes' {
      assert bytes' == bytes + bytes'[|bytes|..];
      assert c.decode(false, bytes') == Some((|bytes|, k));
    }
  }

  // ---------------------------------------------------------------------------
  // Parts
  // ---------------------------------------------------------------------------

  function EncodePart<K>(c: Codec<K>, terminal: bool, part: Option<K>): Option<Key> {
    match part
    case None => Some([])
    case Some(k) => c.encode(terminal, k)
  }

  function SizePart<K>(c: Codec<K>, terminal: bool, part: Option<K>): nat {
    match part
    case None => 0
    case Some(k) => c.size(terminal, k)
  }

  function Concat(a: Option<Key>, b: Option<Key>): Option<Key> {
    if a.Some? && b.Some? then Some(a.value + b.value) else None
  }

  // ---------------------------------------------------------------------------
  // Pair
  // ---------------------------------------------------------------------------

  datatype Pair<+K1, +K2> = Pair(key1: Option<K1>, key2: Option<K2>)

  function Join<K1, K2>(k1: K1, k2: K2): Pair<K1, K2> {
    Pair(Some(k1), Some(k2))
  }

  function EncodePair<K1, K2>(c1: Codec<K1>, c2: Codec<K2>, terminal: bool, p: Pair<K1, K2>): Option<Key> {
    Concat(EncodePart(c1, false, p.key1), EncodePart(c2, terminal, p.key2))
  }

  function DecodePair<K1, K2>(c1: Codec<K1>, c2: Codec<K2>, terminal: bool, b: Key): Option<(nat, Pair<K1, K2>)> {
    match c1.decode(false, b)
    case None => None
    case Some((read1, k1)) =>
      if read1 > |b| then None
      else
        match c2.decode(terminal, b[read1..])
        case None => None
        case Some((read2, k2)) => Some((read1 + read2, Join(k1, k2)))
  }

  function PairCodec<K1, K2>(c1: Codec<K1>, c2: Codec<K2>): Codec<Pair<K1, K2>> {
    Codec((terminal, p) => EncodePair(c1, c2, terminal, p),
          (terminal, b) => DecodePair(c1, c2, terminal, b),
          (terminal, p: Pair<K1, K2>) => SizePart(c1, false, p.key1) + SizePart(c2, terminal, p.key2))
  }

  function PairComplete<K1, K2>(d1: K1 -> bool, d2: K2 -> bool): Pair<K1, K2> -> bool {
    (p: Pair<K1, K2>) => p.key1.Some? && p.key2.Some? && d1(p.key1.value) && d2(p.key2.value)
  }

  /** Pairs of lawful codecs are lawful, so that pairs nest to any depth. */
  lemma PairLawful<K1(!new), K2(!new)>(c1: Codec<K1>, c2: Codec<K2>, d1: K1 -> bool, d2: K2 -> bool)
    requires Lawful(c1, d1) && Lawful(c2, d2)
    ensures Lawful(PairCodec(c1, c2), PairComplete(d1, d2))
    ensures forall terminal, k1, k2 :: PairCodec(c1, c2).encode(terminal, Join(k1, k2)).Some? <==>
              c1.encode(false, k1).Some? && c2.encode(terminal, k2).Some?
  {
    var c, complete := PairCodec(c1, c2), PairComplete(d1, d2);
    forall p | complete(p) && c.encode(true, p).Some?
      ensures c.decode(true, c.encode(true, p).value) == Some((|c.encode(true, p).value|, p))
    {
      PairDecodes(c1, c2, d1, d2, true, p, []);
      assert c.encode(true, p).value + [] == c.encode(true, p).value;
    }
    forall p, rest | complete(p) && c.encode(false, p).Some?
      ensures c.decode(false, c.encode(false, p).value + rest) == Some((|c.encode(false, p).value|, p))
    {
      PairDecodes(c1, c2, d1, d2, false, p, rest);
    }
  }

  lemma PairDecodes<K1(!new), K2(!new)>(
    c1: Codec<K1>, c2: Codec<K2>, d1: K1 -> bool, d2: K2 -> bool, terminal: bool, p: Pair<K1, K2>, rest: Key)
    requires Lawful(c1, d1) && Lawful(c2, d2) && PairComplete(d1, d2)(p)
    requires EncodePair(c1, c2, terminal, p).Some? && (terminal ==> rest == [])
    ensures DecodePair(c1, c2, terminal, EncodePair(c1, c2, terminal, p).value + rest)
         == Some((|EncodePair(c1, c2, terminal, p).value|, p))
  {
    var first := c1.encode(false, p.key1.value).value;
    var second := c2.encode(terminal, p.key2.value).value;
    var bytes := first + second + rest;
    assert bytes == first + (second + rest);
    assert c1.decode(false, bytes) == Some((|first|, p.key1.value));
    assert bytes[|first|..] == second + rest;
    if terminal {
      assert second + rest == second;
    }
    assert c2.decode(terminal, second + rest) == Some((|second|, p.key2.value));
  }

  // ---------------------------------------------------------------------------
  // Triple and Quad
  // ---------------------------------------------------------------------------

  datatype Triple<+K1, +K2, +K3> = Triple(k1: Option<K1>, k2: Option<K2>, k3: Option<K3>)

  datatype Quad<+K1, +K2, +K3, +K4> =
    Quad(k1: Option<K1>, k2: Option<K2>, k3: Option<K3>, k4: Option<K4>)

  function EncodeTriple<K1, K2, K3>(
    c1: Codec<K1>, c2: Codec<K2>, c3: Codec<K3>, terminal: bool, t: Triple<K1, K2, K3>): Option<Key>
  {
    Concat(Concat(EncodePart(c1, false, t.k1), EncodePart(c2, false, t.k2)), EncodePart(c3, terminal, t.k3))
  }

  /** Reads one part at the running offset `at`, as every decoder does. */
  function DecodeAt<K>(c: Codec<K>, terminal: bool, b: Key, at: nat): (r: Option<(nat, K)>)
    ensures r.Some? ==> at <= r.value.0
  {
    if at > |b| then None
    else
      match c.decode(terminal, b[at..])
      case None => None
      case Some((read, k)) => Some((at + read, k))
  }

  function DecodeTriple<K1, K2, K3>(
    c1: Codec<K1>, c2: Codec<K2>, c3: Codec<K3>, terminal: bool, b: Key): Option<(nat, Triple<K1, K2, K3>)>
  {
    var r1 := DecodeAt(c1, false, b, 0);
    if r1.None? then None else
    var r2 := DecodeAt(c2, false, b, r1.value.0);
    if r2.None? then None else
    var r3 := DecodeAt(c3, terminal, b, r2.value.0);
    if r3.None? then None else
    Some((r3.value.0, Triple(Some(r1.value.1), Some(r2.value.1), Some(r3.value.1))))
  }

  function TripleCodec<K1, K2, K3>(c1: Codec<K1>, c2: Codec<K2>, c3: Codec<K3>): Codec<Triple<K1, K2, K3>> {
    Codec((terminal, t) => EncodeTriple(c1, c2, c3, terminal, t),
          (terminal, b) => DecodeTriple(c1, c2, c3, terminal, b),
          (terminal, t: Triple<K1, K2, K3>) =>
            SizePart(c1, false, t.k1) + SizePart(c2, false, t.k2) + SizePart(c3, terminal, t.k3))
  }

  function TripleComplete<K1, K2, K3>(d1: K1 -> bool, d2: K2 -> bool, d3: K3 -> bool): Triple<K1, K2, K3> -> bool {
    (t: Triple<K1, K2, K3>) =>
      t.k1.Some? && t.k2.Some? && t.k3.Some? && d1(t.k1.value) && d2(t.k2.value) && d3(t.k3.value)
  }

  function EncodeQuad<K1, K2, K3, K4>(
    c1: Codec<K1>, c2: Codec<K2>, c3: Codec<K3>, c4: Codec<K4>, terminal: bool, q: Quad<K1, K2, K3, K4>): Option<Key>
  {
    Concat(Concat(Concat(EncodePart(c1, false, q.k1), EncodePart(c2, false, q.k2)),
                  EncodePart(c3, false, q.k3)),
           EncodePart(c4, terminal, q.k4))
  }

  function DecodeQuad<K1, K2, K3, K4>(
    c1: Codec<K1>, c2: Codec<K2>, c3: Codec<K3>, c4: Codec<K4>, terminal: bool, b: Key)
    : Option<(nat, Quad<K1, K2, K3, K4>)>
  {
    var r1 := DecodeAt(c1, false, b, 0);
    if r1.None? then None else
    var r2 := DecodeAt(c2, false, b, r1.value.0);
    if r2.None? then None else
    var r3 := DecodeAt(c3, false, b, r2.value.0);
    if r3.None? then None else
    var r4 := DecodeAt(c4, terminal, b, r3.value.0);
    if r4.None? then None else
    Some((r4.value.0, Quad(Some(r1.value.1), Some(r2.value.1), Some(r3.value.1), Some(r4.value.1))))
  }

  function QuadCodec<K1, K2, K3, K4>(
    c1: Codec<K1>, c2: Codec<K2>, c3: Codec<K3>, c4: Codec<K4>): Codec<Quad<K1, K2, K3, K4>>
  {
    Codec((terminal, q) => EncodeQuad(c1, c2, c3, c4, terminal, q),
          (terminal, b) => DecodeQuad(c1, c2, c3, c4, terminal, b),
          (terminal, q: Quad<K1, K2, K3, K4>) =>
            SizePart(c1, false, q.k1) + SizePart(c2, false, q.k2) + SizePart(c3, false, q.k3)
            + SizePart(c4, terminal, q.k4))
  }

  function QuadComplete<K1, K2, K3, K4>(
    d1: K1 -> bool, d2: K2 -> bool, d3: K3 -> bool, d4: K4 -> bool): Quad<K1, K2, K3, K4> -> bool
  {
    (q: Quad<K1, K2, K3, K4>) =>
      && q.k1.Some? && q.k2.Some? && q.k3.Some? && q.k4.Some?
      && d1(q.k1.value) && d2(q.k2.value) && d3(q.k3.value) && d4(q.k4.value)
  }

  /** A lawful part is read back at its offset when it stands there. */
  lemma PartDecodes<K(!new)>(c: Codec<K>, complete: K -> bool, terminal: bool, k: K, before: Key, after: Key)
    requires Lawful(c, complete) && complete(k) && c.encode(terminal, k).Some? && (terminal ==> after == [])
    ensures var bytes := c.encode(terminal, k).value;
            DecodeAt(c, terminal, before + bytes + after, |before|) == Some((|before| + |bytes|, k))
  {
    var bytes := c.encode(terminal, k).value;
    assert (before + bytes + after)[|before|..] == bytes + after;
    if terminal {
      assert bytes + after == bytes;
    }
    assert c.decode(terminal, bytes + after) == Some((|bytes|, k));
  }

  lemma TripleDecodes<K1(!new), K2(!new), K3(!new)>(
    c1: Codec<K1>, c2: Codec<K2>, c3: Codec<K3>, d1: K1 -> bool, d2: K2 -> bool, d3: K3 -> bool,
    terminal: bool, t: Triple<K1, K2, K3>, rest: Key)
    requires Lawful(c1, d1) && Lawful(c2, d2) && Lawful(c3, d3) && TripleComplete(d1, d2, d3)(t)
    requires EncodeTriple(c1, c2, c3, terminal, t).Some? && (terminal ==> rest == [])
    ensures var bytes := EncodeTriple(c1, c2, c3, terminal, t).value;
            DecodeTriple(c1, c2, c3, terminal, bytes + rest) == Some((|bytes|, t))
  {
    var b1 := c1.encode(false, t.k1.value).value;
    var b2 := c2.encode(false, t.k2.value).value;
    var b3 := c3.encode(terminal, t.k3.value).value;
    var all := b1 + b2 + b3 + rest;
    assert all == [] + b1 + (b2 + b3 + rest);
    PartDecodes(c1, d1, false, t.k1.value, [], b2 + b3 + rest);
    assert all == b1 + b2 + (b3 + rest);
    PartDecodes(c2, d2, false, t.k2.value, b1, b3 + rest);
    PartDecodes(c3, d3, terminal, t.k3.value, b1 + b2, rest);
  }

  lemma TripleLawful<K1(!new), K2(!new), K3(!new)>(
    c1: Codec<K1>, c2: Codec<K2>, c3: Codec<K3>, d1: K1 -> bool, d2: K2 -> bool, d3: K3 -> bool)
    requires Lawful(c1, d1) && Lawful(c2, d2) && Lawful(c3, d3)
    ensures Lawful(TripleCodec(c1, c2, c3), TripleComplete(d1, d2, d3))
    ensures forall terminal, k1, k2, k3 ::
              TripleCodec(c1, c2, c3).encode(terminal, Triple(Some(k1), Some(k2), Some(k3))).Some? <==>
              c1.encode(false, k1).Some? && c2.encode(false, k2).Some? && c3.encode(terminal, k3).Some?
  {
    var c, complete := TripleCodec(c1, c2, c3), TripleComplete(d1, d2, d3);
    forall t | complete(t) && c.encode(true, t).Some?
      ensures c.decode(true, c.encode(true, t).value) == Some((|c.encode(true, t).value|, t))
    {
      TripleDecodes(c1, c2, c3, d1, d2, d3, true, t, []);
      assert c.encode(true, t).value + [] == c.encode(true, t).value;
    }
    forall t, rest | complete(t) && c.encode(false, t).Some?
      ensures c.decode(false, c.encode(false, t).value + rest) == Some((|c.encode(false, t).value|, t))
    {
      TripleDecodes(c1, c2, c3, d1, d2, d3, false, t, rest);
    }
  }

  lemma QuadDecodes<K1(!new), K2(!new), K3(!new), K4(!new)>(
    c1: Codec<K1>, c2: Codec<K2>, c3: Codec<K3>, c4: Codec<K4>,
    d1: K1 -> bool, d2: K2 -> bool, d3: K3 -> bool, d4: K4 -> bool,
    terminal: bool, q: Quad<K1, K2, K3, K4>, rest: Key)
    requires Lawful(c1, d1) && Lawful(c2, d2) && Lawful(c3, d3) && Lawful(c4, d4)
    requires QuadComplete(d1, d2, d3, d4)(q)
    requires EncodeQuad(c1, c2, c3, c4, terminal, q).Some? && (terminal ==> rest == [])
    ensures var bytes := EncodeQuad(c1, c2, c3, c4, terminal, q).value;
            DecodeQuad(c1, c2, c3, c4, terminal, bytes + rest) == Some((|bytes|, q))
  {
    var b1 := c1.encode(false, q.k1.value).value;
    var b2 := c2.encode(false, q.k2.value).value;
    var b3 := c3.encode(false, q.k3.value).value;
    var b4 := c4.encode(terminal, q.k4.value).value;
    var all := b1 + b2 + b3 + b4 + rest;
    assert all == [] + b1 + (b2 + b3 + b4 + rest);
    PartDecodes(c1, d1, false, q.k1.value, [], b2 + b3 + b4 + rest);
    assert all == b1 + b2 + (b3 + b4 + rest);
    PartDecodes(c2, d2, false, q.k2.value, b1, b3 + b4 + rest);
    assert all == b1 + b2 + b3 + (b4 + rest);
    PartDecodes(c3, d3, false, q.k3.value, b1 + b2, b4 + rest);
    PartDecodes(c4, d4, terminal, q.k4.value, b1 + b2 + b3, rest);
  }

  lemma QuadLawful<K1(!new), K2(!new), K3(!new), K4(!new)>(
    c1: Codec<K1>, c2: Codec<K2>, c3: Codec<K3>, c4: Codec<K4>,
    d1: K1 -> bool, d2: K2 -> bool, d3: K3 -> bool, d4: K4 -> bool)
    requires Lawful(c1, d1) && Lawful(c2, d2) && Lawful(c3, d3) && Lawful(c4, d4)
    ensures Lawful(QuadCodec(c1, c2, c3, c4), QuadComplete(d1, d2, d3, d4))
    ensures forall terminal, k1, k2, k3, k4 ::
              QuadCodec(c1, c2, c3, c4).encode(terminal, Quad(Some(k1), Some(k2), Some(k3), Some(k4))).Some? <==>
              && c1.encode(false, k1).Some? && c2.encode(false, k2).Some? && c3.encode(false, k3).Some?
              && c4.encode(terminal, k4).Some?
  {
    var c, complete := QuadCodec(c1, c2, c3, c4), QuadComplete(d1, d2, d3, d4);
    forall q | complete(q) && c.encode(true, q).Some?
      ensures c.decode(true, c.encode(true, q).value) == Some((|c.encode(true, q).value|, q))
    {
      QuadDecodes(c1, c2, c3, c4, d1, d2, d3, d4, true, q, []);
      assert c.encode(true, q).value + [] == c.encode(true, q).value;
    }
    forall q, rest | complete(q) && c.encode(false, q).Some?
      ensures c.decode(false, c.encode(false, q).value + rest) == Some((|c.encode(false, q).value|, q))
    {
      QuadDecodes(c1, c2, c3, c4, d1, d2, d3, d4, false, q, rest);
    }
  }
}
