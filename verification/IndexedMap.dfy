/**
 * A map with secondary indexes (`collections/indexed_map.go`), together with the multi and
 * unique indexes that it drives (`collections/indexes`).
 */
module IndexedMap {
  import opened Bytes
  import opened Collections
  import opened Options

  datatype IndexError = Lookup(error: Error) | NoReferenceKey | Conflict

  datatype Outcome = Done | Failed(error: IndexError)

  /** The value read when it is first asked for; later calls repeat that answer. */
  class CachedGet<P(==,!new), V(!new)> {
    const map_: IndexedMap<P, V>
    const key: P
    var calledOnce: bool
    var value: Result<V>

    constructor (m: IndexedMap<P, V>, key: P)
      ensures map_ == m && this.key == key && !calledOnce
    {
      map_, this.key, calledOnce, value := m, key, false, Err(NotFound);
    }

    method Call() returns (r: Result<V>)
      modifies this
      ensures calledOnce && value == r
      ensures r == if old(calledOnce) then old(value) else map_.Get(key)
    {
      if !calledOnce {
        value := map_.Get(key);
        calledOnce := true;
      }
      r := value;
    }
  }

  /** An index: pairs of a reference key and a primary key; a unique one has no two pairs per reference. */
  class Index<P(==,!new), V(!new)> {
    const unique: bool
    const refKey: (P, V) -> Option<Key>
    var pairs: set<(Key, P)>

    constructor (unique: bool, refKey: (P, V) -> Option<Key>)
      ensures this.unique == unique && this.refKey == refKey && pairs == {}
    {
      this.unique, this.refKey, pairs := unique, refKey, {};
    }

    /** Removes the entry derived from a value: the pair, or in a unique index the reference. */
    method UnreferenceValue(pk: P, v: V) returns (r: Outcome)
      modifies this
      ensures refKey(pk, v).None? ==> r == Failed(NoReferenceKey) && pairs == old(pairs)
      ensures refKey(pk, v).Some? ==> r == Done
      ensures refKey(pk, v).Some? ==>
                pairs == set e | e in old(pairs) && (e.0 != refKey(pk, v).value || (!unique && e.1 != pk))
    {
      var ref := refKey(pk, v);
      if ref.None? {
        return Failed(NoReferenceKey);
      }
      pairs := if unique then set e | e in pairs && e.0 != ref.value else pairs - {(ref.value, pk)};
      return Done;
    }

    method Reference(pk: P, newValue: V, lazyOldValue: CachedGet<P, V>) returns (r: Outcome)
      requires this as object != lazyOldValue
      modifies this, lazyOldValue
      ensures !old(lazyOldValue.calledOnce) ==>
                (r.Done? <==> CanReplace(old(pairs), pk, old(lazyOldValue.map_.Get(lazyOldValue.key)), newValue))
      ensures !old(lazyOldValue.calledOnce) && r.Done? ==>
                Replaced(old(pairs), pairs, pk, old(lazyOldValue.map_.Get(lazyOldValue.key)), newValue)
    {
      var oldValue := lazyOldValue.Call();
      match oldValue {
        case Ok(v) =>
          r := UnreferenceValue(pk, v);
          if r.Failed? {
            return;
          }
        case Err(NotFound) =>
        case Err(e) =>
          return Failed(Lookup(e));
      }
      var ref := refKey(pk, newValue);
      if ref.None? {
        return Failed(NoReferenceKey);
      }
      if unique && exists e :: e in pairs && e.0 == ref.value {
        return Failed(Conflict);
      }
      pairs := pairs + {(ref.value, pk)};
      return Done;
    }

    method Unreference(pk: P, lazyOldValue: CachedGet<P, V>) returns (r: Outcome)
      requires this as object != lazyOldValue
      modifies this, lazyOldValue
      ensures !old(lazyOldValue.calledOnce) ==>
                (r.Done? <==> CanDrop(pk, old(lazyOldValue.map_.Get(lazyOldValue.key))))
      ensures !old(lazyOldValue.calledOnce) && r.Done? ==>
                Dropped(old(pairs), pairs, pk, old(lazyOldValue.map_.Get(lazyOldValue.key)))
    {
      var value := lazyOldValue.Call();
      match value {
        case Ok(v) => r := UnreferenceValue(pk, v);
        case Err(e) => return Failed(Lookup(e));
      }
    }

    /** The pairs that remain once the entry derived from `v` is gone. */
    ghost function Without(before: set<(Key, P)>, pk: P, ref: Key): set<(Key, P)> {
      set e | e in before && (e.0 != ref || (!unique && e.1 != pk))
    }

    ghost predicate CanDrop(pk: P, v: Result<V>) {
      v.Ok? && refKey(pk, v.value).Some?
    }

    ghost predicate Dropped(before: set<(Key, P)>, after: set<(Key, P)>, pk: P, v: Result<V>) {
      CanDrop(pk, v) && after == Without(before, pk, refKey(pk, v.value).value)
    }

    /** The pairs without the entry of the old value, if there was one. */
    ghost function Kept(before: set<(Key, P)>, pk: P, oldValue: Result<V>): set<(Key, P)> {
      if CanDrop(pk, oldValue) then Without(before, pk, refKey(pk, oldValue.value).value) else before
    }

    /** Both reference keys exist, and in a unique index the new one is free. */
    ghost predicate CanReplace(before: set<(Key, P)>, pk: P, oldValue: Result<V>, newValue: V) {
      && refKey(pk, newValue).Some? && (oldValue == Err(NotFound) || CanDrop(pk, oldValue))
      && (unique ==> forall e :: e in Kept(before, pk, oldValue) ==> e.0 != refKey(pk, newValue).value)
    }

    /** The entry of the old value, if there was one, has given way to the entry of the new one. */
    ghost predicate Replaced(before: set<(Key, P)>, after: set<(Key, P)>, pk: P, oldValue: Result<V>, newValue: V) {
      && CanReplace(before, pk, oldValue, newValue)
      && after == Kept(before, pk, oldValue) + {(refKey(pk, newValue).value, pk)}
    }

    /** The index holds exactly the pairs derived from the map. */
    ghost predicate Agrees(m: map<P, V>)
      reads this
    {
      Derived(pairs, m)
    }

    ghost predicate Derived(s: set<(Key, P)>, m: map<P, V>) {
      && (forall pk :: pk in m ==> refKey(pk, m[pk]).Some?)
      && (forall e :: e in s <==> e.1 in m && refKey(e.1, m[e.1]) == Some(e.0))
      && (unique ==> forall e, f :: e in s && f in s && e.0 == f.0 ==> e == f)
    }

    lemma DroppedAgrees(before: set<(Key, P)>, after: set<(Key, P)>, m: map<P, V>, pk: P)
      requires pk in m && Derived(before, m) && Dropped(before, after, pk, Ok(m[pk]))
      ensures Derived(after, m - {pk})
    {
      assert (refKey(pk, m[pk]).value, pk) in before;
    }

    lemma ReplacedAgrees(before: set<(Key, P)>, after: set<(Key, P)>, m: map<P, V>, pk: P, oldValue: Result<V>, v: V)
      requires Derived(before, m) && Replaced(before, after, pk, oldValue, v)
      requires oldValue == Err(NotFound) ==> pk !in m
      requires oldValue.Ok? ==> pk in m && oldValue.value == m[pk]
      ensures Derived(after, m[pk := v])
    {
      KeptAgrees(before, m, pk, oldValue);
      assert Derived(Kept(before, pk, oldValue), m - {pk});
    }

    lemma KeptAgrees(before: set<(Key, P)>, m: map<P, V>, pk: P, oldValue: Result<V>)
      requires Derived(before, m) && (oldValue == Err(NotFound) || CanDrop(pk, oldValue))
      requires oldValue == Err(NotFound) ==> pk !in m
      requires oldValue.Ok? ==> pk in m && oldValue.value == m[pk]
      ensures Derived(Kept(before, pk, oldValue), m - {pk})
    {
      if oldValue.Ok? {
        DroppedAgrees(before, Kept(before, pk, oldValue), m, pk);
      } else {
        assert m - {pk} == m;
      }
    }

    /**
     * In an index that agrees with the map, an entry can be replaced exactly if the new value has a
     * reference key and, in a unique index, no other primary key has the same one.
     */
    lemma ReplaceableInMap(before: set<(Key, P)>, m: map<P, V>, pk: P, v: V)
      requires Derived(before, m)
      ensures var oldValue := if pk in m then Ok(m[pk]) else Err(NotFound);
              CanReplace(before, pk, oldValue, v) <==>
                && refKey(pk, v).Some?
                && (unique ==> forall other :: other in m && other != pk ==> refKey(other, m[other]) != refKey(pk, v))
    {
      var oldValue := if pk in m then Ok(m[pk]) else Err(NotFound);
      KeptAgrees(before, m, pk, oldValue);
      var kept := Kept(before, pk, oldValue);
      assert forall other :: other in m && other != pk ==> other in m - {pk};
      if refKey(pk, v).Some? {
        forall other | other in m && other != pk && refKey(other, m[other]) == refKey(pk, v)
          ensures (refKey(pk, v).value, other) in kept
        {
        }
      }
    }
  }

  class IndexedMap<P(==,!new), V(!new)> {
    var primary: map<P, V>
    const indexes: seq<Index<P, V>>
    const encodesKey: P -> bool
    const encodesValue: V -> bool

    constructor (indexes: seq<Index<P, V>>, encodesKey: P -> bool, encodesValue: V -> bool)
      ensures primary == map[] && this.indexes == indexes
    {
      primary := map[];
      this.indexes, this.encodesKey, this.encodesValue := indexes, encodesKey, encodesValue;
    }

    /** `Map.Get` of the primary map, up to the decoding of stored values. */
    function Get(pk: P): Result<V>
      reads this
    {
      if !encodesKey(pk) then Err(Encoding) else if pk in primary then Ok(primary[pk]) else Err(NotFound)
    }

    ghost predicate Valid()
      reads this
    {
      && (forall pk :: pk in primary ==> encodesKey(pk))
      && (forall i, j :: 0 <= i < j < |indexes| ==> indexes[i] != indexes[j])
    }

    ghost predicate AllAgree()
      reads this, indexes
    {
      forall i :: 0 <= i < |indexes| ==> indexes[i].Agrees(primary)
    }

    /** Key and value have encodings, and every index can replace its entry. */
    ghost predicate CanSet(pk: P, value: V)
      reads this, indexes
    {
      && encodesKey(pk) && encodesValue(value)
      && forall i :: 0 <= i < |indexes| ==> indexes[i].CanReplace(indexes[i].pairs, pk, Get(pk), value)
    }

    /** The key has an encoding, and if there are indexes, a value with all its reference keys. */
    ghost predicate CanRemove(pk: P)
      reads this
    {
      encodesKey(pk) && forall i :: 0 <= i < |indexes| ==> indexes[i].CanDrop(pk, Get(pk))
    }

    /**
     * Updates every index before the primary map, so that each of them still finds the old value.
     * Without an error, indexes that agreed with the map agree with the updated map.
     */
    method Set(pk: P, value: V) returns (r: Outcome)
      requires Valid()
      modifies this, indexes
      ensures Valid()
      ensures r.Done? <==> old(CanSet(pk, value))
      ensures r.Done? ==> primary == old(primary)[pk := value]
      ensures r.Failed? ==> primary == old(primary)
      ensures r.Done? && old(AllAgree()) ==> AllAgree()
    {
      var i := 0;
      while i < |indexes|
        invariant 0 <= i <= |indexes| && Valid() && primary == old(primary)
        invariant forall j :: i <= j < |indexes| ==> indexes[j].pairs == old(indexes[j].pairs)
        invariant old(AllAgree()) ==> forall j :: 0 <= j < i ==> indexes[j].Agrees(primary[pk := value])
        invariant forall j :: 0 <= j < i ==> indexes[j].CanReplace(old(indexes[j].pairs), pk, Get(pk), value)
      {
        var lazy := new CachedGet(this, pk);
        ghost var before := indexes[i].pairs;
        r := indexes[i].Reference(pk, value, lazy);
        if r.Failed? {
          return;
        }
        if old(AllAgree()) {
          indexes[i].ReplacedAgrees(before, indexes[i].pairs, primary, pk, Get(pk), value);
        }
        i := i + 1;
      }
      if !encodesKey(pk) || !encodesValue(value) {
        return Failed(Lookup(Encoding));
      }
      primary := primary[pk := value];
      return Done;
    }

    method Remove(pk: P) returns (r: Outcome)
      requires Valid()
      modifies this, indexes
      ensures Valid()
      ensures r.Done? <==> old(CanRemove(pk))
      ensures r.Done? ==> primary == old(primary) - {pk}
      ensures r.Failed? ==> primary == old(primary)
      ensures r.Done? && old(AllAgree()) ==> AllAgree()
    {
      var i := 0;
      while i < |indexes|
        invariant 0 <= i <= |indexes| && Valid() && primary == old(primary)
        invariant forall j :: i <= j < |indexes| ==> indexes[j].pairs == old(indexes[j].pairs)
        invariant old(AllAgree()) ==> forall j :: 0 <= j < i ==> indexes[j].Agrees(primary - {pk})
        invariant forall j :: 0 <= j < i ==> indexes[j].CanDrop(pk, Get(pk))
      {
        var lazy := new CachedGet(this, pk);
        ghost var before := indexes[i].pairs;
        r := indexes[i].Unreference(pk, lazy);
        if r.Failed? {
          return;
        }
        if old(AllAgree()) {
          indexes[i].DroppedAgrees(before, indexes[i].pairs, primary, pk);
        }
        i := i + 1;
      }
      if !encodesKey(pk) {
        return Failed(Lookup(Encoding));
      }
      primary := primary - {pk};
      return Done;
    }

    /** After any run of calls that return no error, every index agrees with the map. */
    method Run(ops: seq<Op<P, V>>) returns (r: Outcome)
      requires Valid() && AllAgree()
      modifies this, indexes
      ensures r.Done? ==> AllAgree() && primary == Applied(old(primary), ops)
    {
      var i := 0;
      while i < |ops|
        invariant 0 <= i <= |ops| && Valid() && AllAgree()
        invariant primary == Applied(old(primary), ops[..i])
      {
        match ops[i] {
          case Put(pk, v) => r := Set(pk, v);
          case Delete(pk) => r := Remove(pk);
        }
        if r.Failed? {
          return;
        }
        assert ops[..i + 1][..i] == ops[..i];
        i := i + 1;
      }
      assert ops[..i] == ops;
      return Done;
    }
  }

  datatype Op<P, V> = Put(pk: P, value: V) | Delete(pk: P)

  /** What a run of successful calls does to a plain map. */
  ghost function Applied<P(!new), V(!new)>(m: map<P, V>, ops: seq<Op<P, V>>): map<P, V> {
    if ops == [] then m
    else
      var before := Applied(m, ops[..|ops| - 1]);
      match ops[|ops| - 1]
      case Put(pk, v) => before[pk := v]
      case Delete(pk) => before - {pk}
  }
}
