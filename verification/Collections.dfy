/** The map collection (`collections/map.go`). */
module Collections {
  import opened Bytes
  import opened KeyCodec
  import opened KeyBuffer
  import opened Ranges
  import opened KVStore
  import opened PartCodecs
  import opened Options

  datatype Error = NotFound | Encoding | InvalidIterator

  datatype Result<+T> = Ok(value: T) | Err(error: Error)

  datatype ValueCodec<!V> = ValueCodec(encode: V -> Option<Key>, decode: Key -> Option<V>)

  /** Nothing outside the collection with this prefix differs. */
  ghost predicate OnlyTouches(before: map<Key, Key>, after: map<Key, Key>, prefix: Key) {
    forall k :: !(prefix <= k) ==> (k in before <==> k in after) && (k in before ==> before[k] == after[k])
  }

  const CLEAR_BATCH_SIZE: nat := 10000

  method DeleteKeys(s: Store, keys: seq<Key>)
    modifies s
    ensures s.m.Keys == old(s.m).Keys - (set k | k in keys)
    ensures forall k :: k in s.m ==> s.m[k] == old(s.m)[k]
  {
    var i := 0;
    while i < |keys|
      invariant 0 <= i <= |keys|
      invariant s.m.Keys == old(s.m).Keys - (set k | k in keys[..i])
      invariant forall k :: k in s.m ==> s.m[k] == old(s.m)[k]
    {
      s.Delete(keys[i]);
      assert keys[..i + 1] == keys[..i] + [keys[i]];
      i := i + 1;
    }
    assert keys[..i] == keys;
  }

  /** What is left of `before` after deleting some keys of an interval. */
  ghost predicate PartlyDeleted(before: map<Key, Key>, now: map<Key, Key>, start: Key, end: Option<Key>) {
    && now.Keys <= before.Keys
    && (forall k :: k in now ==> now[k] == before[k])
    && (forall k :: k in before && k !in now ==> InDomain(k, start, end))
  }

  /** Deletes the keys of an interval batch by batch, reading each batch before deleting it. */
  method DeleteDomain(s: Store, start: Key, end: Option<Key>)
    modifies s
    ensures PartlyDeleted(old(s.m), s.m, start, end)
    ensures forall k :: k in s.m ==> !InDomain(k, start, end)
  {
    while true
      invariant PartlyDeleted(old(s.m), s.m, start, end)
      decreases |s.m|
    {
      var all := s.Iterator(start, end, Ascending);
      var keys := if |all| < CLEAR_BATCH_SIZE then all else all[..CLEAR_BATCH_SIZE];
      assert forall k :: k in keys ==> k in all;
      ghost var before := s.m;
      DeleteKeys(s, keys);
      if |keys| < CLEAR_BATCH_SIZE {
        break;
      }
      assert keys[0] in before && keys[0] !in s.m;
      SmallerKeys(s.m, before);
    }
  }

  lemma SmallerKeys(m: map<Key, Key>, n: map<Key, Key>)
    requires m.Keys < n.Keys
    ensures |m| < |n|
  {
    SmallerSet(m.Keys, n.Keys);
  }

  lemma SmallerSet<T>(a: set<T>, b: set<T>)
    requires a < b
    ensures |a| < |b|
  {
    assert b == a + (b - a);
  }

  class Map<K(!new), V> {
    const kc: Codec<K>
    const vc: ValueCodec<V>
    const prefix: Key
    const store: Store

    /** In a store without keys of its prefix the collection is empty, and so well formed. */
    constructor (kc: Codec<K>, vc: ValueCodec<V>, prefix: Key, store: Store, ghost complete: K -> bool)
      ensures this.kc == kc && this.vc == vc && this.prefix == prefix && this.store == store
      ensures (forall k :: k in store.m ==> !(prefix <= k)) ==> WellFormed(complete)
    {
      this.kc, this.vc, this.prefix, this.store := kc, vc, prefix, store;
    }

    function StoredKey(key: K): Option<Key> {
      Concat(Some(prefix), kc.encode(true, key))
    }

    method Set(key: K, value: V, ghost complete: K -> bool) returns (r: Result<()>)
      requires SizeExact(kc)
      modifies store
      ensures r.Ok? <==> kc.encode(true, key).Some? && vc.encode(value).Some?
      ensures r.Ok? ==> store.m == old(store.m)[StoredKey(key).value := vc.encode(value).value]
      ensures r.Err? ==> store.m == old(store.m) && r.error == Encoding
      ensures OnlyTouches(old(store.m), store.m, prefix)
      ensures old(WellFormed(complete)) && complete(key) ==> WellFormed(complete)
    {
      var bytesKey := EncodeKeyWithPrefix(prefix, kc, key);
      if bytesKey.None? {
        return Err(Encoding);
      }
      var valueBytes := vc.encode(value);
      if valueBytes.None? {
        return Err(Encoding);
      }
      store.Set(bytesKey.value, valueBytes.value);
      assert bytesKey.value[|prefix|..] == kc.encode(true, key).value;
      return Ok(());
    }

    method Get(key: K) returns (r: Result<V>)
      requires SizeExact(kc)
      ensures kc.encode(true, key).None? ==> r == Err(Encoding)
      ensures kc.encode(true, key).Some? && StoredKey(key).value !in store.m ==> r == Err(NotFound)
      ensures kc.encode(true, key).Some? && StoredKey(key).value in store.m ==>
                match vc.decode(store.m[StoredKey(key).value])
                case None => r == Err(Encoding)
                case Some(v) => r == Ok(v)
    {
      var bytesKey := EncodeKeyWithPrefix(prefix, kc, key);
      if bytesKey.None? {
        return Err(Encoding);
      }
      if bytesKey.value !in store.m {
        return Err(NotFound);
      }
      var v := vc.decode(store.m[bytesKey.value]);
      return if v.None? then Err(Encoding) else Ok(v.value);
    }

    method Has(key: K) returns (r: Result<bool>)
      requires SizeExact(kc)
      ensures r == if kc.encode(true, key).None? then Err(Encoding) else Ok(StoredKey(key).value in store.m)
    {
      var bytesKey := EncodeKeyWithPrefix(prefix, kc, key);
      return if bytesKey.None? then Err(Encoding) else Ok(bytesKey.value in store.m);
    }

    method Remove(key: K, ghost complete: K -> bool) returns (r: Result<()>)
      requires SizeExact(kc)
      modifies store
      ensures r.Ok? <==> kc.encode(true, key).Some?
      ensures r.Ok? ==> store.m == old(store.m) - {StoredKey(key).value}
      ensures r.Err? ==> store.m == old(store.m) && r.error == Encoding
      ensures OnlyTouches(old(store.m), store.m, prefix)
      ensures old(WellFormed(complete)) ==> WellFormed(complete)
    {
      var bytesKey := EncodeKeyWithPrefix(prefix, kc, key);
      if bytesKey.None? {
        return Err(Encoding);
      }
      store.Delete(bytesKey.value);
      return Ok(());
    }

    /**
     * Deletes exactly the entries of this collection that satisfy the bounds, if the start bound
     * resolves. One that has fallen off the key space, which takes a prefix of 0xFF bytes, makes
     * it delete every entry outside the collection.
     */
    method Clear(range: RangeValues<K>, ghost complete: K -> bool) returns (r: Result<()>)
      modifies store
      ensures r.Ok? <==> ParseRange(prefix, kc, range).Domain?
      ensures r.Err? ==> store.m == old(store.m)
      ensures r.Ok? && StartBytes(prefix, kc, range.start).Some? ==>
                && OnlyTouches(old(store.m), store.m, prefix)
                && forall k :: prefix <= k && k in old(store.m) ==>
                     if Allows(kc, range, k[|prefix|..]) then k !in store.m
                     else k in store.m && store.m[k] == old(store.m)[k]
      ensures r.Ok? && StartBytes(prefix, kc, range.start).None? ==>
                forall k :: k in store.m <==>
                  k in old(store.m) && prefix <= k && !Below(k, EndBytes(prefix, kc, range.end))
      ensures store.m.Keys <= old(store.m).Keys && forall k :: k in store.m ==> store.m[k] == old(store.m)[k]
      ensures old(WellFormed(complete)) ==> WellFormed(complete)
    {
      match ParseRange(prefix, kc, range) {
        case EncodingError => return Err(Encoding);
        case InvalidIterator => return Err(Error.InvalidIterator);
        case Domain(start, end, _) =>
          ghost var before := store.m;
          DeleteDomain(store, start, end);
          forall k ensures InDomain(k, start, end) <==> Reached(range, k) {
            DomainReached(range, k);
          }
          return Ok(());
      }
    }

    /** The raw keys that a range reaches: all others too, if its start bound has fallen off. */
    predicate Reached(range: RangeValues<K>, k: Key)
      requires ParseRange(prefix, kc, range).Domain?
    {
      if StartBytes(prefix, kc, range.start).Some? then prefix <= k && Allows(kc, range, k[|prefix|..])
      else prefix <= k ==> Below(k, EndBytes(prefix, kc, range.end))
    }

    lemma DomainReached(range: RangeValues<K>, k: Key)
      requires ParseRange(prefix, kc, range).Domain?
      ensures var d := ParseRange(prefix, kc, range); InDomain(k, d.start, d.end) <==> Reached(range, k)
    {
      if StartBytes(prefix, kc, range.start).Some? {
        RangeExact(prefix, kc, range, k);
      } else {
        FallenStart(prefix, kc, range, k);
      }
    }

    /** Every entry of the collection was written under the encoding of some complete key. */
    ghost predicate WellFormed(complete: K -> bool)
      reads store
    {
      forall k :: k in store.m && prefix <= k ==>
        exists key :: complete(key) && kc.encode(true, key) == Some(k[|prefix|..])
    }

    /** The raw keys of an iteration: exactly the stored keys that satisfy the bounds, in order. */
    method Iterate(range: RangeValues<K>) returns (r: Result<seq<Key>>)
      ensures r.Ok? <==> ParseRange(prefix, kc, range).Domain?
      ensures r.Ok? ==> SortedBy(r.value, range.order)
      ensures r.Ok? && StartBytes(prefix, kc, range.start).Some? ==>
                forall k :: k in r.value <==>
                  k in store.m && prefix <= k && Allows(kc, range, k[|prefix|..])
      ensures r.Ok? && StartBytes(prefix, kc, range.start).None? ==>
                forall k :: k in r.value <==>
                  k in store.m && (prefix <= k ==> Below(k, EndBytes(prefix, kc, range.end)))
    {
      match ParseRange(prefix, kc, range) {
        case EncodingError => return Err(Encoding);
        case InvalidIterator => return Err(Error.InvalidIterator);
        case Domain(start, end, order) =>
          var keys := store.Iterator(start, end, order);
          forall k ensures InDomain(k, start, end) <==> Reached(range, k) {
            DomainReached(range, k);
          }
          return Ok(keys);
      }
    }

    /**
     * `Iterator.Keys`: strips the prefix and decodes every key. In a well-formed collection it
     * never fails and yields exactly the stored keys whose encodings satisfy the bounds.
     */
    method Keys(range: RangeValues<K>, ghost complete: K -> bool) returns (r: Result<seq<K>>)
      requires !AllFF(prefix) && Lawful(kc, complete) && WellFormed(complete)
      ensures r.Ok? <==> ParseRange(prefix, kc, range).Domain?
      ensures r.Ok? ==> forall key :: complete(key) && kc.encode(true, key).Some? ==>
                (key in r.value <==> StoredKey(key).value in store.m && Allows(kc, range, kc.encode(true, key).value))
      ensures r.Ok? ==> forall i, j :: 0 <= i < j < |r.value| ==>
                && kc.encode(true, r.value[i]).Some? && kc.encode(true, r.value[j]).Some?
                && var a, b := kc.encode(true, r.value[i]).value, kc.encode(true, r.value[j]).value;
                   if range.order == Ascending then Less(a, b) else Less(b, a)
    {
      var raw := Iterate(range);
      if raw.Err? {
        return Err(raw.error);
      }
      OrdinaryPrefixResolves(prefix, kc, range);
      var keys: seq<K> := [];
      var i := 0;
      while i < |raw.value|
        invariant 0 <= i <= |raw.value| && |keys| == i
        invariant forall j :: 0 <= j < i ==> StoredAs(complete, keys[j], raw.value[j])
      {
        var k := raw.value[i];
        assert k in raw.value;
        var bytesKey := k[|prefix|..];
        ghost var key :| complete(key) && kc.encode(true, key) == Some(bytesKey);
        assert kc.decode(true, bytesKey) == Some((|bytesKey|, key));
        var decoded := kc.decode(true, bytesKey);
        if decoded.None? || decoded.value.0 != |bytesKey| {
          return Err(Encoding);
        }
        assert k == prefix + bytesKey;
        keys := keys + [decoded.value.1];
        i := i + 1;
      }
      forall key | complete(key) && kc.encode(true, key).Some?
        ensures key in keys <==> StoredKey(key).value in raw.value
      {
        SameMembers(complete, keys, raw.value, key);
        assert StoredKey(key).value[|prefix|..] == kc.encode(true, key).value;
      }
      forall i, j | 0 <= i < j < |keys|
        ensures var a, b := kc.encode(true, keys[i]).value, kc.encode(true, keys[j]).value;
                if range.order == Ascending then Less(a, b) else Less(b, a)
      {
        LessWithPrefix(prefix, kc.encode(true, keys[i]).value, kc.encode(true, keys[j]).value);
        LessWithPrefix(prefix, kc.encode(true, keys[j]).value, kc.encode(true, keys[i]).value);
      }
      return Ok(keys);
    }

    ghost predicate StoredAs(complete: K -> bool, key: K, k: Key) {
      complete(key) && kc.encode(true, key).Some? && k == prefix + kc.encode(true, key).value
    }

    lemma SameMembers(complete: K -> bool, keys: seq<K>, raw: seq<Key>, key: K)
      requires RoundTrips(kc, complete) && |keys| == |raw|
      requires forall j :: 0 <= j < |keys| ==> StoredAs(complete, keys[j], raw[j])
      requires complete(key) && kc.encode(true, key).Some?
      ensures key in keys <==> StoredKey(key).value in raw
    {
      if key in keys {
        var j :| 0 <= j < |keys| && keys[j] == key;
        assert raw[j] in raw;
      }
      if StoredKey(key).value in raw {
        var j :| 0 <= j < |raw| && raw[j] == StoredKey(key).value;
        var a, b := kc.encode(true, keys[j]).value, kc.encode(true, key).value;
        assert a == (prefix + a)[|prefix|..] == (prefix + b)[|prefix|..] == b;
        assert kc.decode(true, a) == Some((|a|, keys[j]));
        assert keys[j] in keys;
      }
    }
  }
  /** Clearing a collection from past a key whose stored form is all 0xFF bytes empties the whole store. */
  method ClearEmptiesStore<K(!new), V>(m: Map<K, V>, key: K) returns (r: Result<()>)
    requires AllFF(m.prefix) && m.kc.encode(true, key).Some? && AllFF(m.kc.encode(true, key).value)
    modifies m.store
    ensures r.Ok? && m.store.m == map[]
  {
    var range := RangeValues(Some(PrefixEndOf(key)), None, Ascending);
    assert AllFF(m.prefix + m.kc.encode(true, key).value);
    assert StartBytes(m.prefix, m.kc, range.start).None?;
    FallenStart(m.prefix, m.kc, range, []);
    r := m.Clear(range, _ => true);
    assert m.store.m.Keys == {};
  }

  /** So it is with byte-string keys under the prefix 0xFF: an entry of the collection 1 is in the interval. */
  lemma OtherEntryReached()
    ensures var range := RangeValues<Key>.RangeValues(Some(PrefixEndOf([])), None, Ascending);
            && ParseRange([255], BytesCodec(), range) == Domain([], None, Ascending)
            && InDomain([1, 7], [], None) && !([255] <= [1, 7])
  {
    var range := RangeValues<Key>.RangeValues(Some(PrefixEndOf([])), None, Ascending);
    assert [255] + [] == [255];
    FallenStart([255], BytesCodec(), range, [1, 7]);
  }
}
