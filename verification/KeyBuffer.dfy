/** Writing keys into a caller's buffer at a running offset, as the `Encode` methods do. */
module KeyBuffer {
  import opened Bytes
  import opened KeyCodec
  import opened Options

  /** `copy(buffer[at:], bytes)` */
  method CopyBytes(buffer: array<Byte>, at: nat, bytes: Key)
    requires at + |bytes| <= buffer.Length
    modifies buffer
    ensures buffer[..at] == old(buffer[..at])
    ensures buffer[at..at + |bytes|] == bytes
    ensures buffer[at + |bytes|..] == old(buffer[at + |bytes|..])
  {
    var i := 0;
    while i < |bytes|
      invariant 0 <= i <= |bytes|
      invariant buffer[..at] == old(buffer[..at])
      invariant buffer[at..at + i] == bytes[..i]
      invariant buffer[at + i..] == old(buffer[at + i..])
    {
      buffer[at + i] := bytes[i];
      i := i + 1;
    }
  }

  /** Encodes one part at offset `at`, or nothing if the part is absent. */
  method WritePart<K(!new)>(c: Codec<K>, terminal: bool, buffer: array<Byte>, at: nat, part: Option<K>)
    returns (ok: bool, next: nat)
    requires SizeExact(c) && at + SizePart(c, terminal, part) <= buffer.Length
    modifies buffer
    ensures buffer[..at] == old(buffer[..at])
    ensures ok <==> EncodePart(c, terminal, part).Some?
    ensures ok ==> next == at + SizePart(c, terminal, part)
    ensures ok ==> buffer[at..next] == EncodePart(c, terminal, part).value
    ensures ok ==> buffer[next..] == old(buffer[next..])
  {
    if part.None? {
      return true, at;
    }
    var bytes := c.encode(terminal, part.value);
    if bytes.None? {
      return false, at;
    }
    CopyBytes(buffer, at, bytes.value);
    return true, at + |bytes.value|;
  }

  /** Bytes written up to `mid` survive what is written after it. */
  lemma Extend(now: Key, before: Key, at: nat, mid: nat, next: nat, first: Key, second: Key)
    requires at <= mid <= next <= |now| == |before|
    requires before[at..mid] == first && now[..mid] == before[..mid] && now[mid..next] == second
    ensures now[at..next] == first + second && now[..at] == before[..at]
  {
    assert now[at..mid] == now[..mid][at..] == before[..mid][at..] == first;
    assert now[at..next] == now[at..mid] + now[mid..next];
    assert now[..at] == now[..mid][..at];
  }

  method EncodePairInto<K1(!new), K2(!new)>(
    c1: Codec<K1>, c2: Codec<K2>, terminal: bool, buffer: array<Byte>, at: nat, p: Pair<K1, K2>)
    returns (ok: bool, next: nat)
    requires SizeExact(c1) && SizeExact(c2)
    requires at + PairCodec(c1, c2).size(terminal, p) <= buffer.Length
    modifies buffer
    ensures buffer[..at] == old(buffer[..at])
    ensures ok <==> PairCodec(c1, c2).encode(terminal, p).Some?
    ensures ok ==> next == at + PairCodec(c1, c2).size(terminal, p)
    ensures ok ==> buffer[at..next] == PairCodec(c1, c2).encode(terminal, p).value
  {
    ok, next := WritePart(c1, false, buffer, at, p.key1);
    if !ok {
      return;
    }
    ghost var before, mid := buffer[..], next;
    ok, next := WritePart(c2, terminal, buffer, next, p.key2);
    assert buffer[..][..mid] == before[..mid];
    assert buffer[..at] == buffer[..mid][..at];
    if ok {
      Extend(buffer[..], before, at, mid, next, before[at..mid], EncodePart(c2, terminal, p.key2).value);
    }
  }

  method EncodeTripleInto<K1(!new), K2(!new), K3(!new)>(
    c1: Codec<K1>, c2: Codec<K2>, c3: Codec<K3>, terminal: bool, buffer: array<Byte>, at: nat, t: Triple<K1, K2, K3>)
    returns (ok: bool, next: nat)
    requires SizeExact(c1) && SizeExact(c2) && SizeExact(c3)
    requires at + TripleCodec(c1, c2, c3).size(terminal, t) <= buffer.Length
    modifies buffer
    ensures buffer[..at] == old(buffer[..at])
    ensures ok <==> TripleCodec(c1, c2, c3).encode(terminal, t).Some?
    ensures ok ==> next == at + TripleCodec(c1, c2, c3).size(terminal, t)
    ensures ok ==> buffer[at..next] == TripleCodec(c1, c2, c3).encode(terminal, t).value
  {
    ok, next := EncodePairInto(c1, c2, false, buffer, at, Pair(t.k1, t.k2));
    if !ok {
      return;
    }
    ghost var before, mid := buffer[..], next;
    ok, next := WritePart(c3, terminal, buffer, next, t.k3);
    assert buffer[..][..mid] == before[..mid];
    assert buffer[..at] == buffer[..mid][..at];
    if ok {
      Extend(buffer[..], before, at, mid, next, before[at..mid], EncodePart(c3, terminal, t.k3).value);
    }
  }

  method EncodeQuadInto<K1(!new), K2(!new), K3(!new), K4(!new)>(
    c1: Codec<K1>, c2: Codec<K2>, c3: Codec<K3>, c4: Codec<K4>, terminal: bool,
    buffer: array<Byte>, at: nat, q: Quad<K1, K2, K3, K4>)
    returns (ok: bool, next: nat)
    requires SizeExact(c1) && SizeExact(c2) && SizeExact(c3) && SizeExact(c4)
    requires at + QuadCodec(c1, c2, c3, c4).size(terminal, q) <= buffer.Length
    modifies buffer
    ensures buffer[..at] == old(buffer[..at])
    ensures ok <==> QuadCodec(c1, c2, c3, c4).encode(terminal, q).Some?
    ensures ok ==> next == at + QuadCodec(c1, c2, c3, c4).size(terminal, q)
    ensures ok ==> buffer[at..next] == QuadCodec(c1, c2, c3, c4).encode(terminal, q).value
  {
    ok, next := EncodeTripleInto(c1, c2, c3, false, buffer, at, Triple(q.k1, q.k2, q.k3));
    if !ok {
      return;
    }
    ghost var before, mid := buffer[..], next;
    ok, next := WritePart(c4, terminal, buffer, next, q.k4);
    assert buffer[..][..mid] == before[..mid];
    assert buffer[..at] == buffer[..mid][..at];
    if ok {
      Extend(buffer[..], before, at, mid, next, before[at..mid], EncodePart(c4, terminal, q.k4).value);
    }
  }

  /** The key under which a collection stores `key`: its prefix, then the encoded key. */
  method EncodeKeyWithPrefix<K(!new)>(prefix: Key, c: Codec<K>, key: K) returns (r: Option<Key>)
    requires SizeExact(c)
    ensures r == Concat(Some(prefix), c.encode(true, key))
  {
    var buffer := new Byte[|prefix| + c.size(true, key)](_ => 0);
    CopyBytes(buffer, 0, prefix);
    ghost var start := buffer[..];
    var ok, next := WritePart(c, true, buffer, |prefix|, Some(key));
    if !ok {
      return None;
    }
    Extend(buffer[..], start, 0, |prefix|, next, prefix, c.encode(true, key).value);
    assert buffer[..] == buffer[..][0..next];
    return Some(buffer[..]);
  }
}
