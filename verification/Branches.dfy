/**
 * Stores and branches of stores: a branch keeps the writes made on top of its parent and hands
 * them to the parent when it is written.
 */
module Branches {
  import opened Bytes
  import opened Options

  type State = map<Key, Key>

  /** What a branch holds: a new value, or the deletion of a key. */
  type Writes = map<Key, Option<Key>>

  /** What is read through a branch with writes `w` of a store `s`; also what `Write` leaves in `s`. */
  function Apply(s: State, w: Writes): State {
    map k | k in s.Keys + w.Keys && (k in w ==> w[k].Some?) :: if k in w then w[k].value else s[k]
  }

  /** Writing a branch of a branch into its parent does not change what is read through the parent. */
  lemma ApplyTwice(s: State, a: Writes, b: Writes)
    ensures Apply(Apply(s, a), b) == Apply(s, a + b)
  {
    var left, right := Apply(Apply(s, a), b), Apply(s, a + b);
    assert forall k :: k in left <==> k in right;
    assert forall k :: k in left ==> left[k] == right[k];
  }

  lemma MergeTwice(a: Writes, b: Writes, c: Writes)
    ensures a + b + c == a + (b + c) && a + map[] == a
  {
  }

  lemma ApplyNothing(s: State)
    ensures Apply(s, map[]) == s
  {
  }
}
