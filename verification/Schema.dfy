/** Schemas of prefix-disjoint collections (`collections/schema.go`, `collections/indexing.go`). */
module Schema {
  import opened Bytes
  import opened Ranges
  import opened KVStore
  import opened Collections
  import opened Options

  datatype Collection = Collection(prefix: Key, name: string, secondaryIndex: bool)

  /** No prefix is the beginning of another one. */
  ghost predicate PrefixFree(prefixes: set<Key>) {
    forall p, q :: p in prefixes && q in prefixes && p <= q ==> p == q
  }

  /** `NameRegex` */
  predicate ValidName(name: string) {
    && name != []
    && IsLetter(name[0])
    && forall i :: 0 <= i < |name| ==> IsLetter(name[i]) || '0' <= name[i] <= '9' || name[i] == '_'
  }

  predicate IsLetter(c: char) {
    'A' <= c <= 'Z' || 'a' <= c <= 'z'
  }

  datatype BuildResult = Built(collections: map<Key, Collection>) | BuilderFailed | Overlapping

  class SchemaBuilder {
    var byPrefix: map<Key, Collection>
    var byName: map<string, Collection>
    var failed: bool
    var used: bool

    ghost predicate Valid()
      reads this
    {
      && (forall p :: p in byPrefix ==> byPrefix[p].prefix == p && ValidName(byPrefix[p].name))
      && (forall p :: p in byPrefix ==> byPrefix[p].name in byName && byName[byPrefix[p].name] == byPrefix[p])
      && (forall n :: n in byName ==> byName[n].name == n && byName[n].prefix in byPrefix
                                      && byPrefix[byName[n].prefix] == byName[n])
    }

    constructor ()
      ensures Valid() && byPrefix == map[] && byName == map[] && !failed && !used
    {
      byPrefix, byName, failed, used := map[], map[], false, false;
    }

    /** Registers a collection, or records an error and leaves the schema as it was. */
    method AddCollection(c: Collection)
      requires Valid() && !used
      modifies this
      ensures Valid() && !used
      ensures var rejected := c.prefix in old(byPrefix) || c.name in old(byName) || !ValidName(c.name);
              && failed == (old(failed) || rejected)
              && byPrefix == (if rejected then old(byPrefix) else old(byPrefix)[c.prefix := c])
              && byName == (if rejected then old(byName) else old(byName)[c.name := c])
    {
      if c.prefix in byPrefix {
        failed := true;
        return;
      }
      if c.name in byName {
        failed := true;
        return;
      }
      if !ValidName(c.name) {
        failed := true;
        return;
      }
      byPrefix := byPrefix[c.prefix := c];
      byName := byName[c.name := c];
    }

    /** Compares every two prefixes; a schema is built exactly when none contains another. */
    method Build() returns (r: BuildResult)
      requires Valid() && !used
      modifies this
      ensures r.BuilderFailed? <==> old(failed)
      ensures r.Built? <==> !old(failed) && PrefixFree(old(byPrefix).Keys)
      ensures r.Built? ==> r.collections == old(byPrefix) && used
      ensures Valid() && byPrefix == old(byPrefix) && byName == old(byName)
    {
      if failed {
        return BuilderFailed;
      }
      var outer := byPrefix.Keys;
      while outer != {}
        invariant outer <= byPrefix.Keys
        invariant forall p, q :: p in byPrefix && p !in outer && q in byPrefix && q <= p ==> p == q
        decreases |outer|
      {
        var prefix :| prefix in outer;
        outer := outer - {prefix};
        var inner := byPrefix.Keys;
        while inner != {}
          invariant inner <= byPrefix.Keys
          invariant forall q :: q in byPrefix && q !in inner && q <= prefix ==> prefix == q
          decreases |inner|
        {
          var prefix2 :| prefix2 in inner;
          inner := inner - {prefix2};
          if prefix == prefix2 {
            continue;
          }
          if prefix2 <= prefix {
            return Overlapping;
          }
        }
      }
      used := true;
      return Built(byPrefix);
    }
  }

  // ---------------------------------------------------------------------------
  // Isolation
  // ---------------------------------------------------------------------------

  /** A raw key belongs to at most one collection of an accepted schema. */
  lemma OneOwner(prefixes: set<Key>, p: Key, q: Key, k: Key)
    requires PrefixFree(prefixes) && p in prefixes && q in prefixes && p <= k && q <= k
    ensures p == q
  {
    assert p == k[..|p|] && q == k[..|q|];
    assert |p| <= |q| ==> p <= q;
    assert |q| <= |p| ==> q <= p;
  }

  /** The entries of one collection. */
  ghost function View(m: map<Key, Key>, prefix: Key): map<Key, Key> {
    map k | k in m && prefix <= k :: m[k]
  }

  /**
   * In an accepted schema, an operation that touches one collection only (which `Set`, `Remove`
   * and `Clear` promise) leaves every entry of every other collection as it was.
   */
  lemma Isolation(prefixes: set<Key>, before: map<Key, Key>, after: map<Key, Key>, p: Key, q: Key)
    requires PrefixFree(prefixes) && p in prefixes && q in prefixes && p != q
    requires OnlyTouches(before, after, p)
    ensures View(before, q) == View(after, q)
  {
    forall k | q <= k
      ensures (k in before <==> k in after) && (k in before ==> before[k] == after[k])
    {
      if p <= k {
        OneOwner(prefixes, p, q, k);
      }
    }
    assert View(before, q).Keys == View(after, q).Keys;
  }

  // ---------------------------------------------------------------------------
  // Looking up the collection of a raw key
  // ---------------------------------------------------------------------------

  /** The lookup tree of a schema: its collections by prefix, without the secondary indexes. */
  ghost predicate IsLookup(tree: map<Key, Collection>, schema: map<Key, Collection>) {
    && (forall p :: p in tree <==> p in schema && !schema[p].secondaryIndex)
    && (forall p :: p in tree ==> tree[p] == schema[p])
  }

  method ModuleCodec(schema: map<Key, Collection>) returns (tree: map<Key, Collection>)
    ensures IsLookup(tree, schema)
  {
    tree := map[];
    var pending := schema.Keys;
    while pending != {}
      invariant pending <= schema.Keys
      invariant forall p :: p in tree <==> p in schema.Keys - pending && !schema[p].secondaryIndex
      invariant forall p :: p in tree ==> tree[p] == schema[p]
      decreases |pending|
    {
      var p :| p in pending;
      pending := pending - {p};
      if schema[p].secondaryIndex {
        continue;
      }
      tree := tree[p := schema[p]];
    }
  }

  /** The keys that `btree.Map.Descend` offers to its callback: those up to the pivot, greatest first. */
  method Descend(tree: map<Key, Collection>, pivot: Key) returns (keys: seq<Key>)
    ensures SortedBy(keys, Descending)
    ensures forall p :: p in keys <==> p in tree && AtMost(p, pivot)
  {
    keys := [];
    var pending := tree.Keys;
    while pending != {}
      invariant pending <= tree.Keys && SortedBy(keys, Descending)
      invariant forall p :: p in keys <==> p in tree.Keys - pending && AtMost(p, pivot)
      decreases |pending|
    {
      var p :| p in pending;
      pending := pending - {p};
      if AtMost(p, pivot) {
        keys := Insert(keys, p, Descending);
      }
    }
  }

  /** In a prefix-free set, the prefix of a key is the greatest element that is not above the key. */
  lemma GreatestIsPrefix(prefixes: set<Key>, p: Key, q: Key, k: Key)
    requires PrefixFree(prefixes) && p in prefixes && q in prefixes
    requires p <= k && AtMost(q, k) && AtMost(p, q)
    ensures p == q
  {
    PrefixInterval(p, k);
    if PrefixEnd(p).Some? {
      LessAsymmetric(k, PrefixEnd(p).value);
      AtMostTransitive(q, k, PrefixEnd(p).value);
    }
    PrefixInterval(p, q);
  }

  /**
   * Walks down from the key, keeping the last collection that matches and stopping at the first
   * that does not. For a schema that `Build` accepts this finds the one collection, other than a
   * secondary index, whose prefix starts the key, and finds nothing when there is none.
   */
  method DecodeKV(tree: map<Key, Collection>, schema: map<Key, Collection>, key: Key)
    returns (cd: Option<Collection>)
    requires PrefixFree(schema.Keys) && IsLookup(tree, schema)
    requires forall p :: p in schema ==> schema[p].prefix == p
    ensures forall p :: p in schema && !schema[p].secondaryIndex ==> (cd == Some(schema[p]) <==> p <= key)
    ensures cd.Some? ==> cd.value.prefix in schema && schema[cd.value.prefix] == cd.value && !cd.value.secondaryIndex
  {
    cd := None;
    var prefixes := Descend(tree, key);
    forall p, q | p in tree && q in prefixes && p <= key && AtMost(p, q) ensures p == q {
      GreatestIsPrefix(schema.Keys, p, q, key);
    }
    var i := 0;
    while i < |prefixes|
      invariant 0 <= i <= |prefixes| && i <= 1
      invariant i == 0 ==> cd == None
      invariant i == 1 ==> prefixes[0] <= key && cd == Some(tree[prefixes[0]])
    {
      var cur := tree[prefixes[i]];
      if cur.prefix <= key {
        assert i == 1 ==> Less(prefixes[1], prefixes[0]);
        if i == 1 {
          LessAsymmetric(prefixes[1], prefixes[0]);
          assert false;
        }
        cd := Some(cur);
      } else {
        break;
      }
      i := i + 1;
    }
    forall p | p in tree && p <= key ensures cd == Some(tree[p]) {
      PrefixInterval(p, key);
      assert p in prefixes;
      FirstIsGreatest(prefixes, p);
      assert prefixes[0] == p;
    }
  }

  lemma FirstIsGreatest(keys: seq<Key>, p: Key)
    requires SortedBy(keys, Descending) && p in keys
    ensures AtMost(p, keys[0])
  {
    var i :| 0 <= i < |keys| && keys[i] == p;
    LessIrreflexive(p);
    if i > 0 {
      LessAsymmetric(keys[i], keys[0]);
    }
  }
}
