/** The key-value store under the collections, by the contract they rely on. */
module KVStore {
  import opened Bytes
  import opened Ranges
  import opened Options

  ghost predicate SortedBy(keys: seq<Key>, order: Order) {
    forall i, j :: 0 <= i < j < |keys| ==>
      if order == Ascending then Less(keys[i], keys[j]) else Less(keys[j], keys[i])
  }

  /** The keys of `m` between `start` and `end`, each once, in the given order. */
  ghost predicate IsIteration(keys: seq<Key>, m: map<Key, Key>, start: Key, end: Option<Key>, order: Order) {
    && SortedBy(keys, order)
    && forall k :: k in keys <==> k in m && InDomain(k, start, end)
  }

  class Store {
    var m: map<Key, Key>

    constructor ()
      ensures m == map[]
    {
      m := map[];
    }

    method Set(k: Key, v: Key)
      modifies this
      ensures m == old(m)[k := v]
    {
      m := m[k := v];
    }

    method Delete(k: Key)
      modifies this
      ensures m == old(m) - {k}
    {
      m := m - {k};
    }

    /** Collects the interval by insertion into a sorted sequence. */
    method Iterator(start: Key, end: Option<Key>, order: Order) returns (keys: seq<Key>)
      ensures IsIteration(keys, m, start, end, order)
    {
      keys := [];
      var pending := m.Keys;
      while pending != {}
        invariant pending <= m.Keys
        invariant SortedBy(keys, order)
        invariant forall k :: k in keys <==> k in m.Keys - pending && InDomain(k, start, end)
        decreases |pending|
      {
        var k :| k in pending;
        pending := pending - {k};
        if InDomain(k, start, end) {
          keys := Insert(keys, k, order);
        }
      }
    }
  }

  /** Inserts a new key at its place in a sorted sequence. */
  method Insert(keys: seq<Key>, k: Key, order: Order) returns (r: seq<Key>)
    requires SortedBy(keys, order) && k !in keys
    ensures SortedBy(r, order)
    ensures forall x :: x in r <==> x in keys || x == k
  {
    var i := 0;
    while i < |keys| && (if order == Ascending then Less(keys[i], k) else Less(k, keys[i]))
      invariant 0 <= i <= |keys|
      invariant forall j :: 0 <= j < i ==>
                  if order == Ascending then Less(keys[j], k) else Less(k, keys[j])
    {
      i := i + 1;
    }
    r := keys[..i] + [k] + keys[i..];
    if i < |keys| {
      LessTotal(keys[i], k);
      forall j | i <= j < |keys|
        ensures if order == Ascending then Less(k, keys[j]) else Less(keys[j], k)
      {
        if j > i {
          if order == Ascending {
            LessTransitive(k, keys[i], keys[j]);
          } else {
            LessTransitive(keys[j], keys[i], k);
          }
        }
      }
    }
    forall x ensures x in r <==> x in keys || x == k {
      assert keys == keys[..i] + keys[i..];
    }
  }
}
