/** Ranges over the keys that share leading parts (`collections/pair.go`, `triple.go`, `quad.go`). */
module PrefixRanges {
  import opened Bytes
  import opened KeyCodec
  import opened Ranges
  import opened Options

  /** `NewPrefixedPairRange` and its relatives: everything that starts with the partial key. */
  function PrefixedRange<K>(partial: K, order: Order): RangeValues<K> {
    RangeValues(Some(Exact(partial)), Some(PrefixEndOf(partial)), order)
  }

  function PairPrefix<K1, K2>(k1: K1): Pair<K1, K2> {
    Pair(Some(k1), None)
  }

  function TriplePrefix<K1, K2, K3>(k1: K1): Triple<K1, K2, K3> {
    Triple(Some(k1), None, None)
  }

  function TripleSuperPrefix<K1, K2, K3>(k1: K1, k2: K2): Triple<K1, K2, K3> {
    Triple(Some(k1), Some(k2), None)
  }

  function QuadPrefix<K1, K2, K3, K4>(k1: K1): Quad<K1, K2, K3, K4> {
    Quad(Some(k1), None, None, None)
  }

  function QuadSuperPrefix<K1, K2, K3, K4>(k1: K1, k2: K2): Quad<K1, K2, K3, K4> {
    Quad(Some(k1), Some(k2), None, None)
  }

  function QuadSuperPrefix3<K1, K2, K3, K4>(k1: K1, k2: K2, k3: K3): Quad<K1, K2, K3, K4> {
    Quad(Some(k1), Some(k2), Some(k3), None)
  }

  /** Whether iterating over the range, in a collection with this prefix, visits the stored key. */
  ghost predicate Visits<K>(prefix: Key, c: Codec<K>, r: RangeValues<K>, k: Key) {
    && ParseRange(prefix, c, r).Domain?
    && InDomain(k, ParseRange(prefix, c, r).start, ParseRange(prefix, c, r).end)
  }

  /** A prefixed range visits the stored keys whose bytes start with the partial key's bytes. */
  lemma PrefixedRangeVisits<K>(prefix: Key, c: Codec<K>, partial: K, order: Order, k: Key)
    requires !AllFF(prefix) && c.encode(true, partial).Some?
    ensures Visits(prefix, c, PrefixedRange(partial, order), prefix + k)
        <==> c.encode(true, partial).value <= k
  {
    var p := c.encode(true, partial).value;
    var r := PrefixedRange(partial, order);
    OrdinaryPrefixResolves(prefix, c, r);
    RangeExact(prefix, c, r, prefix + k);
    assert (prefix + k)[|prefix|..] == k;
    PrefixInterval(p, k);
    PrefixEndAbove(prefix + p, prefix + p);
    LessIrreflexive(prefix + p);
    LessAsymmetric(prefix + p, PrefixEnd(prefix + p).value);
  }

  // ---------------------------------------------------------------------------
  // Leading parts of multi-part keys
  // ---------------------------------------------------------------------------

  lemma LeadingTwo<K1(!new), K2(!new)>(
    c1: Codec<K1>, c2: Codec<K2>, d1: K1 -> bool, d2: K2 -> bool, k1: K1, k2: K2, k1': K1, k2': K2, rest: Key)
    requires SelfDelimiting(c1, d1) && SelfDelimiting(c2, d2)
    requires d1(k1) && d1(k1') && d2(k2) && d2(k2')
    requires c1.encode(false, k1).Some? && c1.encode(false, k1').Some?
    requires c2.encode(false, k2).Some? && c2.encode(false, k2').Some?
    ensures c1.encode(false, k1).value + c2.encode(false, k2).value
         <= c1.encode(false, k1').value + c2.encode(false, k2').value + rest
        <==> k1 == k1' && k2 == k2'
  {
    var b1, b2 := c1.encode(false, k1).value, c2.encode(false, k2).value;
    var b1', b2' := c1.encode(false, k1').value, c2.encode(false, k2').value;
    var all := b1' + b2' + rest;
    assert all == b1' + (b2' + rest);
    if b1 + b2 <= all {
      assert b1 <= all by { assert b1 == (b1 + b2)[..|b1|]; }
      LeadingKey(c1, d1, k1, k1', b2' + rest);
      PrefixOfConcat(b1, b2, b2' + rest);
      LeadingKey(c2, d2, k2, k2', rest);
    }
  }

  lemma LeadingThree<K1(!new), K2(!new), K3(!new)>(
    c1: Codec<K1>, c2: Codec<K2>, c3: Codec<K3>, d1: K1 -> bool, d2: K2 -> bool, d3: K3 -> bool,
    k1: K1, k2: K2, k3: K3, k1': K1, k2': K2, k3': K3, rest: Key)
    requires SelfDelimiting(c1, d1) && SelfDelimiting(c2, d2) && SelfDelimiting(c3, d3)
    requires d1(k1) && d1(k1') && d2(k2) && d2(k2') && d3(k3) && d3(k3')
    requires c1.encode(false, k1).Some? && c1.encode(false, k1').Some?
    requires c2.encode(false, k2).Some? && c2.encode(false, k2').Some?
    requires c3.encode(false, k3).Some? && c3.encode(false, k3').Some?
    ensures c1.encode(false, k1).value + c2.encode(false, k2).value + c3.encode(false, k3).value
         <= c1.encode(false, k1').value + c2.encode(false, k2').value + c3.encode(false, k3').value + rest
        <==> k1 == k1' && k2 == k2' && k3 == k3'
  {
    var b12 := c1.encode(false, k1).value + c2.encode(false, k2).value;
    var b12' := c1.encode(false, k1').value + c2.encode(false, k2').value;
    var b3, b3' := c3.encode(false, k3).value, c3.encode(false, k3').value;
    var all := b12' + b3' + rest;
    assert all == b12' + (b3' + rest);
    if b12 + b3 <= all {
      assert b12 <= all by { assert b12 == (b12 + b3)[..|b12|]; }
      LeadingTwo(c1, c2, d1, d2, k1, k2, k1', k2', b3' + rest);
      PrefixOfConcat(b12, b3, b3' + rest);
      LeadingKey(c3, d3, k3, k3', rest);
    }
  }

  // ---------------------------------------------------------------------------
  // The range constructors
  // ---------------------------------------------------------------------------

  /** The prefixed pair range visits exactly the pairs whose first part is `k1`. */
  lemma PairRangeSelects<K1(!new), K2(!new)>(
    prefix: Key, c1: Codec<K1>, c2: Codec<K2>, d1: K1 -> bool, d2: K2 -> bool, order: Order,
    k1: K1, p: Pair<K1, K2>)
    requires !AllFF(prefix) && Lawful(c1, d1) && Lawful(c2, d2)
    requires d1(k1) && c1.encode(false, k1).Some?
    requires PairComplete(d1, d2)(p) && EncodePair(c1, c2, true, p).Some?
    ensures Visits(prefix, PairCodec(c1, c2), PrefixedRange(PairPrefix(k1), order),
                   prefix + EncodePair(c1, c2, true, p).value)
        <==> p.key1.value == k1
  {
    var bytes, first := EncodePair(c1, c2, true, p).value, c1.encode(false, k1).value;
    var c := PairCodec(c1, c2);
    assert c.encode(true, PairPrefix(k1)) == Some(first) by { assert first + [] == first; }
    PrefixedRangeVisits(prefix, c, PairPrefix(k1), order, bytes);
    LeadingKey(c1, d1, k1, p.key1.value, c2.encode(true, p.key2.value).value);
  }

  function WithFirst<K1, K2>(k1: K1, bound: RangeKey<K2>): RangeKey<Pair<K1, K2>> {
    var key := Pair(Some(k1), Some(bound.key));
    match bound
    case Exact(_) => Exact(key)
    case Next(_) => Next(key)
    case PrefixEndOf(_) => PrefixEndOf(key)
  }

  /** A `PairRange` over the pairs with first part `k1`, with bounds on the second part. */
  function Within<K1, K2>(k1: K1, r: RangeValues<K2>): RangeValues<Pair<K1, K2>> {
    RangeValues(
      Some(if r.start.None? then Exact(PairPrefix(k1)) else WithFirst(k1, r.start.value)),
      Some(if r.end.None? then PrefixEndOf(PairPrefix(k1)) else WithFirst(k1, r.end.value)),
      r.order)
  }

  lemma BoundWithFirst<K1, K2>(prefix: Key, c1: Codec<K1>, c2: Codec<K2>, k1: K1, bound: RangeKey<K2>)
    requires c1.encode(false, k1).Some?
    ensures Encodes(PairCodec(c1, c2), Some(WithFirst(k1, bound))) <==> Encodes(c2, Some(bound))
    ensures Encodes(c2, Some(bound)) ==>
              BoundBytes(prefix, PairCodec(c1, c2), WithFirst(k1, bound))
              == BoundBytes(prefix + c1.encode(false, k1).value, c2, bound)
  {
    if Encodes(c2, Some(bound)) {
      var b1, b2 := c1.encode(false, k1).value, c2.encode(true, bound.key).value;
      assert prefix + (b1 + b2) == prefix + b1 + b2;
    }
  }

  /** Such a range is a range over the second parts in the collection of the pairs with that first part. */
  lemma WithinIsNested<K1, K2>(prefix: Key, c1: Codec<K1>, c2: Codec<K2>, k1: K1, r: RangeValues<K2>)
    requires c1.encode(false, k1).Some?
    ensures ParseRange(prefix, PairCodec(c1, c2), Within(k1, r))
            == ParseRange(prefix + c1.encode(false, k1).value, c2, r)
  {
    var c, first := PairCodec(c1, c2), c1.encode(false, k1).value;
    assert c.encode(true, PairPrefix(k1)) == Some(first) by { assert first + [] == first; }
    if r.start.Some? {
      BoundWithFirst(prefix, c1, c2, k1, r.start.value);
    }
    if r.end.Some? {
      BoundWithFirst(prefix, c1, c2, k1, r.end.value);
    }
  }

  /** It visits exactly the pairs with that first part whose second part satisfies the bounds. */
  lemma PairBoundsSelect<K1(!new), K2(!new)>(
    prefix: Key, c1: Codec<K1>, c2: Codec<K2>, d1: K1 -> bool, d2: K2 -> bool,
    k1: K1, r: RangeValues<K2>, p: Pair<K1, K2>)
    requires !AllFF(prefix) && Lawful(c1, d1) && Lawful(c2, d2)
    requires d1(k1) && c1.encode(false, k1).Some? && Encodes(c2, r.start) && Encodes(c2, r.end)
    requires PairComplete(d1, d2)(p) && EncodePair(c1, c2, true, p).Some?
    ensures Visits(prefix, PairCodec(c1, c2), Within(k1, r), prefix + EncodePair(c1, c2, true, p).value)
        <==> p.key1.value == k1 && Allows(c2, r, c2.encode(true, p.key2.value).value)
  {
    var first, rest := c1.encode(false, k1).value, c2.encode(true, p.key2.value).value;
    var bytes := EncodePair(c1, c2, true, p).value;
    WithinIsNested(prefix, c1, c2, k1, r);
    NotAllFF(prefix, first);
    OrdinaryVisits(prefix + first, c2, r, prefix + bytes);
    assert prefix + first <= prefix + bytes <==> p.key1.value == k1 by {
      PrefixOfConcat(prefix, first, bytes);
      LeadingKey(c1, d1, k1, p.key1.value, rest);
    }
    if p.key1.value == k1 {
      SecondPart(prefix, first, rest);
    }
  }

  lemma SecondPart(prefix: Key, first: Key, rest: Key)
    ensures (prefix + (first + rest))[|prefix + first|..] == rest
  {
    assert prefix + (first + rest) == prefix + first + rest;
  }

  /** In a collection with an ordinary prefix a range visits the keys that satisfy its bounds. */
  lemma OrdinaryVisits<K>(prefix: Key, c: Codec<K>, r: RangeValues<K>, k: Key)
    requires !AllFF(prefix) && Encodes(c, r.start) && Encodes(c, r.end)
    ensures Visits(prefix, c, r, k) <==> prefix <= k && Allows(c, r, k[|prefix|..])
  {
    OrdinaryPrefixResolves(prefix, c, r);
    RangeExact(prefix, c, r, k);
    if prefix <= k && ParseRange(prefix, c, r) == InvalidIterator {
      InvalidIteratorMeansEmpty(prefix, c, r, k[|prefix|..]);
    }
  }

  lemma NotAllFF(prefix: Key, rest: Key)
    requires !AllFF(prefix)
    ensures !AllFF(prefix + rest)
  {
    var i :| 0 <= i < |prefix| && prefix[i] != 255;
    assert (prefix + rest)[i] != 255;
  }

  /** Prefixed and super-prefixed triple ranges visit exactly the triples with those parts. */
  lemma TripleRangesSelect<K1(!new), K2(!new), K3(!new)>(
    prefix: Key, c1: Codec<K1>, c2: Codec<K2>, c3: Codec<K3>,
    d1: K1 -> bool, d2: K2 -> bool, d3: K3 -> bool, order: Order,
    k1: K1, k2: K2, t: Triple<K1, K2, K3>)
    requires !AllFF(prefix) && Lawful(c1, d1) && Lawful(c2, d2) && Lawful(c3, d3)
    requires d1(k1) && c1.encode(false, k1).Some? && d2(k2) && c2.encode(false, k2).Some?
    requires TripleComplete(d1, d2, d3)(t) && EncodeTriple(c1, c2, c3, true, t).Some?
    ensures Visits(prefix, TripleCodec(c1, c2, c3), PrefixedRange(TriplePrefix(k1), order),
                   prefix + EncodeTriple(c1, c2, c3, true, t).value)
        <==> t.k1.value == k1
    ensures Visits(prefix, TripleCodec(c1, c2, c3), PrefixedRange(TripleSuperPrefix(k1, k2), order),
                   prefix + EncodeTriple(c1, c2, c3, true, t).value)
        <==> t.k1.value == k1 && t.k2.value == k2
  {
    var c, bytes := TripleCodec(c1, c2, c3), EncodeTriple(c1, c2, c3, true, t).value;
    var b1, b2 := c1.encode(false, k1).value, c2.encode(false, k2).value;
    var b1', b2' := c1.encode(false, t.k1.value).value, c2.encode(false, t.k2.value).value;
    var b3' := c3.encode(true, t.k3.value).value;
    assert c.encode(true, TriplePrefix(k1)) == Some(b1) by { assert b1 + [] + [] == b1; }
    assert c.encode(true, TripleSuperPrefix(k1, k2)) == Some(b1 + b2) by { assert b1 + b2 + [] == b1 + b2; }
    PrefixedRangeVisits(prefix, c, TriplePrefix(k1), order, bytes);
    PrefixedRangeVisits(prefix, c, TripleSuperPrefix(k1, k2), order, bytes);
    assert bytes == b1' + (b2' + b3');
    LeadingKey(c1, d1, k1, t.k1.value, b2' + b3');
    LeadingTwo(c1, c2, d1, d2, k1, k2, t.k1.value, t.k2.value, b3');
  }

  /** What a partial quad is encoded as. */
  lemma QuadPrefixBytes<K1, K2, K3, K4>(
    c1: Codec<K1>, c2: Codec<K2>, c3: Codec<K3>, c4: Codec<K4>, k1: K1, k2: K2, k3: K3)
    requires c1.encode(false, k1).Some? && c2.encode(false, k2).Some? && c3.encode(false, k3).Some?
    ensures var c := QuadCodec(c1, c2, c3, c4);
            var b1, b2, b3 := c1.encode(false, k1).value, c2.encode(false, k2).value, c3.encode(false, k3).value;
            && c.encode(true, QuadPrefix(k1)) == Some(b1)
            && c.encode(true, QuadSuperPrefix(k1, k2)) == Some(b1 + b2)
            && c.encode(true, QuadSuperPrefix3(k1, k2, k3)) == Some(b1 + b2 + b3)
  {
    var b1, b2, b3 := c1.encode(false, k1).value, c2.encode(false, k2).value, c3.encode(false, k3).value;
    assert b1 + [] + [] + [] == b1;
    assert b1 + b2 + [] + [] == b1 + b2;
    assert b1 + b2 + b3 + [] == b1 + b2 + b3;
  }

  /** A quad starts with the bytes of its own leading parts only. */
  lemma QuadLeads<K1(!new), K2(!new), K3(!new), K4>(
    c1: Codec<K1>, c2: Codec<K2>, c3: Codec<K3>, c4: Codec<K4>, d1: K1 -> bool, d2: K2 -> bool, d3: K3 -> bool,
    k1: K1, k2: K2, k3: K3, q: Quad<K1, K2, K3, K4>)
    requires SelfDelimiting(c1, d1) && SelfDelimiting(c2, d2) && SelfDelimiting(c3, d3)
    requires d1(k1) && c1.encode(false, k1).Some? && d2(k2) && c2.encode(false, k2).Some?
    requires d3(k3) && c3.encode(false, k3).Some?
    requires QuadComplete(d1, d2, d3, _ => true)(q) && EncodeQuad(c1, c2, c3, c4, true, q).Some?
    ensures var bytes := EncodeQuad(c1, c2, c3, c4, true, q).value;
            var b1, b2, b3 := c1.encode(false, k1).value, c2.encode(false, k2).value, c3.encode(false, k3).value;
            && (b1 <= bytes <==> q.k1.value == k1)
            && (b1 + b2 <= bytes <==> q.k1.value == k1 && q.k2.value == k2)
            && (b1 + b2 + b3 <= bytes <==> q.k1.value == k1 && q.k2.value == k2 && q.k3.value == k3)
  {
    var bytes := EncodeQuad(c1, c2, c3, c4, true, q).value;
    var b1', b2' := c1.encode(false, q.k1.value).value, c2.encode(false, q.k2.value).value;
    var b3', b4' := c3.encode(false, q.k3.value).value, c4.encode(true, q.k4.value).value;
    assert bytes == b1' + (b2' + b3' + b4') == b1' + b2' + (b3' + b4');
    LeadingKey(c1, d1, k1, q.k1.value, b2' + b3' + b4');
    LeadingTwo(c1, c2, d1, d2, k1, k2, q.k1.value, q.k2.value, b3' + b4');
    LeadingThree(c1, c2, c3, d1, d2, d3, k1, k2, k3, q.k1.value, q.k2.value, q.k3.value, b4');
  }

  /** The same for the three kinds of quad prefixes. */
  lemma QuadRangesSelect<K1(!new), K2(!new), K3(!new), K4(!new)>(
    prefix: Key, c1: Codec<K1>, c2: Codec<K2>, c3: Codec<K3>, c4: Codec<K4>,
    d1: K1 -> bool, d2: K2 -> bool, d3: K3 -> bool, d4: K4 -> bool, order: Order,
    k1: K1, k2: K2, k3: K3, q: Quad<K1, K2, K3, K4>)
    requires !AllFF(prefix) && Lawful(c1, d1) && Lawful(c2, d2) && Lawful(c3, d3) && Lawful(c4, d4)
    requires d1(k1) && c1.encode(false, k1).Some? && d2(k2) && c2.encode(false, k2).Some?
    requires d3(k3) && c3.encode(false, k3).Some?
    requires QuadComplete(d1, d2, d3, d4)(q) && EncodeQuad(c1, c2, c3, c4, true, q).Some?
    ensures var stored := prefix + EncodeQuad(c1, c2, c3, c4, true, q).value;
            var c := QuadCodec(c1, c2, c3, c4);
            && (Visits(prefix, c, PrefixedRange(QuadPrefix(k1), order), stored) <==> q.k1.value == k1)
            && (Visits(prefix, c, PrefixedRange(QuadSuperPrefix(k1, k2), order), stored) <==>
                q.k1.value == k1 && q.k2.value == k2)
            && (Visits(prefix, c, PrefixedRange(QuadSuperPrefix3(k1, k2, k3), order), stored) <==>
                q.k1.value == k1 && q.k2.value == k2 && q.k3.value == k3)
  {
    var c, bytes := QuadCodec(c1, c2, c3, c4), EncodeQuad(c1, c2, c3, c4, true, q).value;
    QuadPrefixBytes(c1, c2, c3, c4, k1, k2, k3);
    QuadLeads(c1, c2, c3, c4, d1, d2, d3, k1, k2, k3, q);
    PrefixedRangeVisits(prefix, c, QuadPrefix(k1), order, bytes);
    PrefixedRangeVisits(prefix, c, QuadSuperPrefix(k1, k2), order, bytes);
    PrefixedRangeVisits(prefix, c, QuadSuperPrefix3(k1, k2, k3), order, bytes);
  }
}
