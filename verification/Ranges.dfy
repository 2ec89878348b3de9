/** Typed ranges and the byte intervals they become (`collections/iter.go`). */
module Ranges {
  import opened Bytes
  import opened KeyCodec
  import opened Options

  datatype RangeKey<+K> = Exact(key: K) | Next(key: K) | PrefixEndOf(key: K)

  datatype Order = Ascending | Descending

  /** What a `Ranger` answers: an optional start, an optional end and an order. */
  datatype RangeValues<+K> = RangeValues(start: Option<RangeKey<K>>, end: Option<RangeKey<K>>, order: Order)

  // ---------------------------------------------------------------------------
  // What the bounds mean, on the key bytes that follow the collection prefix
  // ---------------------------------------------------------------------------

  predicate Encodes<K>(c: Codec<K>, bound: Option<RangeKey<K>>) {
    bound.Some? ==> c.encode(true, bound.value.key).Some?
  }

  predicate StartAllows<K>(c: Codec<K>, bound: Option<RangeKey<K>>, k: Key)
    requires Encodes(c, bound)
  {
    if bound.None? then true
    else
      var s := c.encode(true, bound.value.key).value;
      match bound.value
      case Exact(_) => AtMost(s, k)
      case Next(_) => Less(s, k)
      case PrefixEndOf(_) => Less(s, k) && !(s <= k)
  }

  predicate EndAllows<K>(c: Codec<K>, bound: Option<RangeKey<K>>, k: Key)
    requires Encodes(c, bound)
  {
    if bound.None? then true
    else
      var e := c.encode(true, bound.value.key).value;
      match bound.value
      case Exact(_) => Less(k, e)
      case Next(_) => AtMost(k, e)
      case PrefixEndOf(_) => Less(k, e) || e <= k
  }

  predicate Allows<K>(c: Codec<K>, r: RangeValues<K>, k: Key)
    requires Encodes(c, r.start) && Encodes(c, r.end)
  {
    StartAllows(c, r.start, k) && EndAllows(c, r.end, k)
  }

  // ---------------------------------------------------------------------------
  // parseRangeInstruction
  // ---------------------------------------------------------------------------

  /** A store iteration: keys from `start` up to, but not including, `end`; no end is infinity. */
  predicate InDomain(k: Key, start: Key, end: Option<Key>) {
    AtMost(start, k) && Below(k, end)
  }

  datatype Instruction =
    | Domain(start: Key, end: Option<Key>, order: Order)
    | EncodingError
    | InvalidIterator

  /** A bound as bytes; the nil slice is `None`. */
  function BoundBytes<K>(prefix: Key, c: Codec<K>, bound: RangeKey<K>): Option<Key>
    requires Encodes(c, Some(bound))
  {
    var key := prefix + c.encode(true, bound.key).value;
    match bound
    case Exact(_) => Some(key)
    case Next(_) => Some(key + [0])
    case PrefixEndOf(_) => PrefixEnd(key)
  }

  function StartBytes<K>(prefix: Key, c: Codec<K>, start: Option<RangeKey<K>>): Option<Key>
    requires Encodes(c, start)
  {
    if start.None? then Some(prefix) else BoundBytes(prefix, c, start.value)
  }

  function EndBytes<K>(prefix: Key, c: Codec<K>, end: Option<RangeKey<K>>): Option<Key>
    requires Encodes(c, end)
  {
    if end.None? then PrefixEnd(prefix) else BoundBytes(prefix, c, end.value)
  }

  /** `bytes.Compare` takes a nil slice for the empty one. */
  function OrEmpty(b: Option<Key>): Key {
    if b.Some? then b.value else []
  }

  function ParseRange<K>(prefix: Key, c: Codec<K>, r: RangeValues<K>): Instruction {
    if !Encodes(c, r.start) || !Encodes(c, r.end) then EncodingError
    else
      var start := OrEmpty(StartBytes(prefix, c, r.start));
      var end := EndBytes(prefix, c, r.end);
      if Less(OrEmpty(end), start) then InvalidIterator else Domain(start, end, r.order)
  }

  // ---------------------------------------------------------------------------
  // Exactness
  // ---------------------------------------------------------------------------

  /** Both bounds are keys: neither has fallen off the end of the key space. */
  ghost predicate Resolves<K>(prefix: Key, c: Codec<K>, r: RangeValues<K>)
    requires Encodes(c, r.start) && Encodes(c, r.end)
  {
    && StartBytes(prefix, c, r.start).Some?
    && (EndBytes(prefix, c, r.end).Some? || OrEmpty(StartBytes(prefix, c, r.start)) == [])
  }

  /** A collection prefix with a byte below 0xFF makes the bounds of every range resolve. */
  lemma OrdinaryPrefixResolves<K>(prefix: Key, c: Codec<K>, r: RangeValues<K>)
    requires !AllFF(prefix) && Encodes(c, r.start) && Encodes(c, r.end)
    ensures Resolves(prefix, c, r)
  {
    var i :| 0 <= i < |prefix| && prefix[i] != 255;
    if r.start.Some? {
      assert (prefix + c.encode(true, r.start.value.key).value)[i] != 255;
    }
    if r.end.Some? {
      assert (prefix + c.encode(true, r.end.value.key).value)[i] != 255;
    }
  }

  lemma PrefixEndAbove(p: Key, k: Key)
    ensures PrefixEnd(p).Some? && AtMost(k, p) ==> Less(k, PrefixEnd(p).value)
  {
    LessIrreflexive(p);
    PrefixInterval(p, p);
    if PrefixEnd(p).Some? && AtMost(k, p) {
      LessAsymmetric(p, PrefixEnd(p).value);
      AtMostTransitive(k, p, PrefixEnd(p).value);
    }
  }

  lemma StartExact<K>(prefix: Key, c: Codec<K>, start: Option<RangeKey<K>>, k: Key)
    requires Encodes(c, start) && StartBytes(prefix, c, start).Some?
    ensures AtMost(StartBytes(prefix, c, start).value, prefix + k) <==> StartAllows(c, start, k)
  {
    if start.None? {
      PrefixInterval(prefix, prefix + k);
    } else {
      var s := c.encode(true, start.value.key).value;
      LessWithPrefix(prefix, k, s);
      LessWithPrefix(prefix, s, k);
      match start.value
      case Exact(_) =>
      case Next(_) => NextKey(prefix + s, prefix + k);
      case PrefixEndOf(_) =>
        EndOfPrefix(prefix, s, k);
    }
  }

  lemma EndExact<K>(prefix: Key, c: Codec<K>, end: Option<RangeKey<K>>, k: Key)
    requires Encodes(c, end)
    ensures Below(prefix + k, EndBytes(prefix, c, end)) <==> EndAllows(c, end, k)
  {
    if end.None? {
      PrefixInterval(prefix, prefix + k);
    } else {
      var e := c.encode(true, end.value.key).value;
      LessWithPrefix(prefix, k, e);
      LessWithPrefix(prefix, e, k);
      match end.value
      case Exact(_) =>
      case Next(_) => NextKey(prefix + e, prefix + k);
      case PrefixEndOf(_) =>
        EndOfPrefix(prefix, e, k);
    }
  }

  /** A key lies below the end of `p` exactly when it is smaller than `p` or starts with it. */
  lemma EndOfPrefix(prefix: Key, p: Key, k: Key)
    ensures Below(prefix + k, PrefixEnd(prefix + p)) <==> Less(k, p) || p <= k
    ensures !Below(prefix + k, PrefixEnd(prefix + p)) <==> Less(p, k) && !(p <= k)
  {
    LessWithPrefix(prefix, k, p);
    PrefixOfConcat(prefix, p, k);
    PrefixInterval(prefix + p, prefix + k);
    PrefixEndAbove(prefix + p, prefix + k);
    LessTotal(p, k);
    LessIrreflexive(p);
    if Less(k, p) { LessAsymmetric(k, p); LessAsymmetric(prefix + k, prefix + p); }
  }

  lemma PrefixOfConcat(p: Key, a: Key, b: Key)
    ensures p + a <= p + b <==> a <= b
  {
    if p + a <= p + b {
      assert (p + b)[|p|..|p + a|] == a;
      assert b[..|a|] == (p + b)[|p|..|p + a|];
    }
  }

  /** An interval that starts at a key of the collection holds keys of the collection only. */
  lemma DomainInside<K>(prefix: Key, c: Codec<K>, r: RangeValues<K>, k: Key)
    requires Encodes(c, r.start) && Encodes(c, r.end) && StartBytes(prefix, c, r.start).Some?
    requires InDomain(k, StartBytes(prefix, c, r.start).value, EndBytes(prefix, c, r.end))
    ensures prefix <= k
  {
    var start, end := StartBytes(prefix, c, r.start).value, EndBytes(prefix, c, r.end);
    assert AtMost(prefix, start) by { StartNotBelow(prefix, c, r.start); }
    AtMostTransitive(prefix, start, k);
    EndNotAbove(prefix, c, r.end, k);
    PrefixInterval(prefix, k);
  }

  lemma StartNotBelow<K>(prefix: Key, c: Codec<K>, start: Option<RangeKey<K>>)
    requires Encodes(c, start) && StartBytes(prefix, c, start).Some?
    ensures AtMost(prefix, StartBytes(prefix, c, start).value)
  {
    LessIrreflexive(prefix);
    if start.Some? {
      var key := prefix + c.encode(true, start.value.key).value;
      PrefixInterval(prefix, key);
      match start.value
      case Exact(_) =>
      case Next(_) => PrefixInterval(prefix, key + [0]);
      case PrefixEndOf(_) =>
        PrefixEndAbove(key, prefix);
        LessAsymmetric(prefix, PrefixEnd(key).value);
    }
  }

  lemma EndNotAbove<K>(prefix: Key, c: Codec<K>, end: Option<RangeKey<K>>, k: Key)
    requires Encodes(c, end) && Below(k, EndBytes(prefix, c, end))
    ensures Below(k, PrefixEnd(prefix))
  {
    if end.Some? && PrefixEnd(prefix).Some? {
      var key := prefix + c.encode(true, end.value.key).value;
      var top := PrefixEnd(prefix).value;
      match end.value
      case Exact(_) =>
        PrefixInterval(prefix, key);
        LessTransitive(k, key, top);
      case Next(_) =>
        PrefixInterval(prefix, key + [0]);
        LessTransitive(k, key + [0], top);
      case PrefixEndOf(_) =>
        PrefixInterval(prefix, key);
        PrefixInterval(key, k);
        PrefixInterval(prefix, k);
        if AtMost(key, k) {
          assert prefix <= k;
        } else {
          LessTransitive(k, key, top);
        }
    }
  }

  /**
   * The interval of a range holds exactly the keys that have the collection's prefix and whose
   * remaining bytes satisfy the bounds, whatever mix of inclusive, exclusive and prefix bounds.
   */
  lemma RangeExact<K>(prefix: Key, c: Codec<K>, r: RangeValues<K>, k: Key)
    requires Encodes(c, r.start) && Encodes(c, r.end) && StartBytes(prefix, c, r.start).Some?
    ensures InDomain(k, StartBytes(prefix, c, r.start).value, EndBytes(prefix, c, r.end))
        <==> prefix <= k && Allows(c, r, k[|prefix|..])
  {
    if prefix <= k {
      assert k == prefix + k[|prefix|..];
      StartExact(prefix, c, r.start, k[|prefix|..]);
      EndExact(prefix, c, r.end, k[|prefix|..]);
    } else if InDomain(k, StartBytes(prefix, c, r.start).value, EndBytes(prefix, c, r.end)) {
      DomainInside(prefix, c, r, k);
    }
  }

  /** A range whose bounds resolve is refused only when no key satisfies its bounds. */
  lemma InvalidIteratorMeansEmpty<K>(prefix: Key, c: Codec<K>, r: RangeValues<K>, k: Key)
    requires Encodes(c, r.start) && Encodes(c, r.end) && Resolves(prefix, c, r)
    requires ParseRange(prefix, c, r) == InvalidIterator
    ensures !Allows(c, r, k)
  {
    var start, end := StartBytes(prefix, c, r.start).value, EndBytes(prefix, c, r.end);
    if Allows(c, r, k) {
      assert (prefix + k)[|prefix|..] == k;
      RangeExact(prefix, c, r, prefix + k);
      assert end.Some? && Less(end.value, start);
      AtMostTransitive(start, prefix + k, end.value) by { LessAsymmetric(prefix + k, end.value); }
    }
  }

  /** A nil end is compared as if it were the empty key, so the range is refused. */
  lemma NilEndIsRefused<K>(prefix: Key, c: Codec<K>, r: RangeValues<K>)
    requires Encodes(c, r.start) && Encodes(c, r.end)
    requires StartBytes(prefix, c, r.start).Some? && !Resolves(prefix, c, r)
    ensures ParseRange(prefix, c, r) == InvalidIterator
  {
  }

  /** Iterating over a whole collection fails exactly when its prefix consists of 0xFF bytes. */
  lemma WholeCollectionRefused<K>(prefix: Key, c: Codec<K>)
    ensures var all := RangeValues<K>.RangeValues(None, None, Ascending);
            ParseRange(prefix, c, all) == InvalidIterator <==> prefix != [] && AllFF(prefix)
  {
    PrefixEndAbove(prefix, prefix);
    LessIrreflexive(prefix);
    if PrefixEnd(prefix).Some? {
      LessAsymmetric(prefix, PrefixEnd(prefix).value);
    }
  }

  /**
   * The interval stays inside the collection exactly when the start bound resolves. A start
   * bound that falls off the key space becomes nil, which the store reads as its first key.
   */
  lemma StaysInside<K>(prefix: Key, c: Codec<K>, r: RangeValues<K>)
    requires prefix != [] && ParseRange(prefix, c, r).Domain?
    ensures StartBytes(prefix, c, r.start).Some? <==>
            var d := ParseRange(prefix, c, r);
            forall k :: k != [] && InDomain(k, d.start, d.end) ==> prefix <= k
  {
    var d := ParseRange(prefix, c, r);
    if StartBytes(prefix, c, r.start).Some? {
      forall k | InDomain(k, d.start, d.end) ensures prefix <= k {
        DomainInside(prefix, c, r, k);
      }
    } else {
      FallenStart(prefix, c, r, [0]);
      assert [0] != [] && !(prefix <= [0]);
    }
  }

  /** With a start bound that has fallen off, every key outside the collection is in the interval. */
  lemma FallenStart<K>(prefix: Key, c: Codec<K>, r: RangeValues<K>, k: Key)
    requires Encodes(c, r.start) && Encodes(c, r.end) && StartBytes(prefix, c, r.start).None?
    ensures ParseRange(prefix, c, r) == Domain([], EndBytes(prefix, c, r.end), r.order)
    ensures AllFF(prefix)
    ensures !(prefix <= k) ==> InDomain(k, [], EndBytes(prefix, c, r.end))
  {
    var key := prefix + c.encode(true, r.start.value.key).value;
    forall i | 0 <= i < |prefix| ensures prefix[i] == 255 {
      assert prefix[i] == key[i];
    }
    PrefixInterval(prefix, k);
    if !(prefix <= k) {
      BelowEveryEnd(prefix, c, r.end, k);
    }
  }

  /** A key that is smaller than the prefix is below every end bound of the collection. */
  lemma BelowEveryEnd<K>(prefix: Key, c: Codec<K>, end: Option<RangeKey<K>>, k: Key)
    requires Encodes(c, end) && Less(k, prefix)
    ensures Below(k, EndBytes(prefix, c, end))
  {
    if end.None? {
      PrefixEndAbove(prefix, k) by { LessAsymmetric(k, prefix); }
    } else {
      var key := prefix + c.encode(true, end.value.key).value;
      PrefixInterval(prefix, key);
      AtMostTransitive(k, prefix, key) by { LessAsymmetric(k, prefix); }
      match end.value
      case Exact(_) =>
      case Next(_) =>
        PrefixInterval(key, key + [0]);
        AtMostTransitive(k, key, key + [0]);
      case PrefixEndOf(_) => PrefixEndAbove(key, k);
    }
  }
}
