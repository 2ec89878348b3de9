/** Byte strings, their lexicographic order, and the end of a prefix (`collections/iter.go`). */
module Bytes {
  import opened Options

  type Byte = x: int | 0 <= x < 256

  type Key = seq<Byte>

  /** `bytes.Compare(a, b) < 0`. On keys, Dafny's `a <= b` says that `a` is a prefix of `b`. */
  predicate Less(a: Key, b: Key) {
    b != [] && (a == [] || a[0] < b[0] || (a[0] == b[0] && Less(a[1..], b[1..])))
  }

  predicate AtMost(a: Key, b: Key) {
    !Less(b, a)
  }

  lemma {:induction false} LessIrreflexive(a: Key)
    ensures !Less(a, a)
  {
    if a != [] { LessIrreflexive(a[1..]); }
  }

  lemma {:induction false} LessTotal(a: Key, b: Key)
    ensures Less(a, b) || a == b || Less(b, a)
  {
    if a != [] && b != [] && a[0] == b[0] {
      LessTotal(a[1..], b[1..]);
      assert a == [a[0]] + a[1..] && b == [b[0]] + b[1..];
    }
  }

  lemma {:induction false} LessTransitive(a: Key, b: Key, c: Key)
    requires Less(a, b) && Less(b, c)
    ensures Less(a, c)
  {
    if a != [] && a[0] == b[0] && b[0] == c[0] {
      LessTransitive(a[1..], b[1..], c[1..]);
    }
  }

  lemma AtMostTransitive(a: Key, b: Key, c: Key)
    requires AtMost(a, b) && AtMost(b, c)
    ensures AtMost(a, c)
    ensures Less(a, b) || Less(b, c) ==> Less(a, c)
  {
    LessTotal(a, b);
    LessTotal(b, c);
    LessTotal(a, c);
    LessIrreflexive(a);
    if Less(a, b) && Less(b, c) {
      LessTransitive(a, b, c);
    }
    if Less(c, a) {
      if Less(a, b) { LessTransitive(c, a, b); }
    }
  }

  lemma LessAsymmetric(a: Key, b: Key)
    requires Less(a, b)
    ensures AtMost(a, b) && a != b
  {
    LessIrreflexive(a);
    if Less(b, a) {
      LessTransitive(a, b, a);
    }
  }

  lemma {:induction false} LessWithPrefix(p: Key, a: Key, b: Key)
    ensures Less(p + a, p + b) <==> Less(a, b)
  {
    if p == [] {
      assert p + a == a && p + b == b;
    } else {
      assert (p + a)[1..] == p[1..] + a && (p + b)[1..] == p[1..] + b;
      LessWithPrefix(p[1..], a, b);
    }
  }

  /** The key that follows directly after `a` is `a` with a zero byte appended. */
  lemma {:induction false} NextKey(a: Key, k: Key)
    ensures AtMost(a + [0], k) <==> Less(a, k)
  {
    if a == [] {
      assert [0][1..] == [];
      if k != [] && k[0] == 0 {
        assert !Less(k[1..], []);
      }
    } else if k != [] {
      assert (a + [0])[1..] == a[1..] + [0];
      NextKey(a[1..], k[1..]);
    }
  }

  // ---------------------------------------------------------------------------
  // The end of a prefix
  // ---------------------------------------------------------------------------

  predicate AllFF(p: Key) {
    forall i :: 0 <= i < |p| ==> p[i] == 255
  }

  /** The least key above every key that starts with `p`; none if there is no such key. */
  function PrefixEnd(p: Key): (end: Option<Key>)
    ensures end.None? <==> AllFF(p)
  {
    if p == [] then None
    else
      match PrefixEnd(p[1..])
      case Some(rest) => Some([p[0]] + rest)
      case None =>
        if p[0] < 255 then Some([p[0] + 1])
        else
          assert AllFF(p[1..]);
          None
  }

  predicate Below(k: Key, end: Option<Key>) {
    end.None? || Less(k, end.value)
  }

  /** `p` is a prefix of `k` exactly when `k` lies between `p` and the end of `p`. */
  lemma {:induction false} PrefixInterval(p: Key, k: Key)
    ensures p <= k <==> AtMost(p, k) && Below(k, PrefixEnd(p))
  {
    if p != [] && k != [] {
      var rest := PrefixEnd(p[1..]);
      PrefixInterval(p[1..], k[1..]);
      if p[0] == k[0] {
        assert p == [p[0]] + p[1..] && k == [k[0]] + k[1..];
        assert p <= k <==> p[1..] <= k[1..];
        assert rest.Some? ==> ([p[0]] + rest.value)[1..] == rest.value;
        assert rest.None? && p[0] < 255 ==> Less(k, [p[0] + 1]);
      } else if rest.None? && p[0] < 255 && k[0] == p[0] + 1 {
        assert !Less(k[1..], [p[0] + 1][1..]);
      }
    }
  }

  /** Drops trailing 0xFF bytes and increments the last byte that is left. */
  method NextBytesPrefixKey(prefix: Key) returns (end: Option<Key>)
    ensures end == PrefixEnd(prefix)
  {
    if |prefix| == 0 {
      return None;
    }
    var buffer := prefix;
    while true
      invariant 0 < |buffer| <= |prefix| && buffer == prefix[..|buffer|]
      invariant AllFF(prefix[|buffer|..])
      decreases |buffer|
    {
      var last := |buffer| - 1;
      assert prefix == buffer[..last] + [buffer[last]] + prefix[|buffer|..];
      if buffer[last] != 255 {
        PrefixEndAt(buffer[..last], buffer[last], prefix[|buffer|..]);
        return Some(buffer[..last] + [buffer[last] + 1]);
      }
      assert prefix[last..] == [255] + prefix[|buffer|..];
      buffer := buffer[..last];
      if |buffer| == 0 {
        assert prefix[0..] == prefix;
        return None;
      }
    }
  }

  lemma {:induction false} PrefixEndAt(front: Key, b: Byte, ffs: Key)
    requires b != 255 && AllFF(ffs)
    ensures PrefixEnd(front + [b] + ffs) == Some(front + [b + 1])
  {
    var p := front + [b] + ffs;
    if front == [] {
      assert p[1..] == ffs && p[0] == b;
      assert front + [b + 1] == [b + 1];
    } else {
      assert p[1..] == front[1..] + [b] + ffs;
      PrefixEndAt(front[1..], b, ffs);
      assert [front[0]] + (front[1..] + [b + 1]) == front + [b + 1];
    }
  }
}
