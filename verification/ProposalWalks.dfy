/** What becomes of each transaction that is offered for a proposal, and why. */
module ProposalWalks {
  import opened Proposals
  import opened ProposalProperties
  import opened Options

  /** Skipped for its sequences, refused by the verifier, selected, or left out for lack of room. */
  datatype Fate = Skipped | Refused | Selected | LeftOut

  /** The transactions with some fate, in the order in which they were offered. */
  function Having(pool: seq<Tx>, fates: seq<Fate>, fate: Fate): seq<Tx>
    requires |fates| <= |pool|
  {
    if fates == [] then []
    else
      var n := |fates| - 1;
      Having(pool, fates[..n], fate) + if fates[n] == fate then [pool[n]] else []
  }

  lemma HavingNext(pool: seq<Tx>, fates: seq<Fate>, next: Fate, fate: Fate)
    requires |fates| < |pool|
    ensures var before := Having(pool, fates, fate);
            Having(pool, fates + [next], fate) == if next == fate then before + [pool[|fates|]] else before
  {
    assert (fates + [next])[..|fates|] == fates;
  }

  // ---------------------------------------------------------------------------
  // Room
  // ---------------------------------------------------------------------------

  /** The transaction fits next to the ones taken, as far as 64 bits tell. */
  predicate Room(l: Limits, taken: seq<Tx>, tx: Tx) {
    && (SizeSum(taken) + tx.size) % TWO_64 <= l.maxTxBytes
    && (l.maxBlockGas > 0 ==> (GasSum(taken) + tx.gas) % TWO_64 <= l.maxBlockGas)
  }

  /** A limit is reached. */
  predicate Filled(l: Limits, taken: seq<Tx>) {
    || SizeSum(taken) % TWO_64 >= l.maxTxBytes
    || (l.maxBlockGas > 0 && GasSum(taken) % TWO_64 >= l.maxBlockGas)
  }

  /** The selector's totals are those of what it has taken. */
  ghost predicate Totals(s: Selection, l: Limits) {
    s.bytes == SizeSum(s.txs) % TWO_64 && (l.maxBlockGas > 0 ==> s.gas == GasSum(s.txs) % TWO_64)
  }

  lemma PlusWraps(sum: nat, a: Uint64)
    ensures Plus(sum % TWO_64, a) == (sum + a) % TWO_64 == Plus(a, sum % TWO_64)
  {
    WrapsOnce(sum, a);
  }

  lemma TotalsMean(s: Selection, l: Limits, tx: Tx)
    requires Totals(s, l)
    ensures Fits(s, l, tx) <==> Room(l, s.txs, tx)
    ensures Full(s, l) <==> Filled(l, s.txs)
    ensures Totals(Add(s, l, tx), l)
  {
    var size, gas := SizeSum(s.txs), GasSum(s.txs);
    Appended(s.txs, tx);
    SumsMean(s, l, tx, size, gas);
  }

  lemma SumsMean(s: Selection, l: Limits, tx: Tx, size: nat, gas: nat)
    requires s.bytes == size % TWO_64 && (l.maxBlockGas > 0 ==> s.gas == gas % TWO_64)
    ensures Plus(tx.size, s.bytes) == (size + tx.size) % TWO_64 == Plus(s.bytes, tx.size)
    ensures l.maxBlockGas > 0 ==> Plus(tx.gas, s.gas) == (gas + tx.gas) % TWO_64 == Plus(s.gas, tx.gas)
  {
    PlusWraps(size, tx.size);
    PlusWraps(gas, tx.gas);
  }

  // ---------------------------------------------------------------------------
  // Sequences
  // ---------------------------------------------------------------------------

  /** The sequence of the first ordered transaction that a signer has among `txs`. */
  function FirstSequence(txs: seq<Tx>, s: Signer): Option<Uint64> {
    if txs == [] then None
    else
      var n := |txs| - 1;
      var first, noted := FirstSequence(txs[..n], s), Noted(Ordering(txs[n]));
      if first.Some? then first else if s in noted then Some(noted[s]) else None
  }

  /**
   * The sequence that the next transaction of a signer has to have: the one after its last selected transaction;
   * if there is none, that of the first one that was left out; if there is none either, any.
   */
  function Expected(selected: seq<Tx>, leftOut: seq<Tx>, s: Signer): Option<Uint64> {
    var last := LastSequence(selected, s);
    if last.Some? then Some(Plus(last.value, 1)) else FirstSequence(leftOut, s)
  }

  ghost predicate AsExpected(selected: seq<Tx>, leftOut: seq<Tx>, tx: Tx) {
    forall k :: 0 <= k < |Ordering(tx)| ==> SignsAsExpected(selected, leftOut, Ordering(tx)[k])
  }

  ghost predicate SignsAsExpected(selected: seq<Tx>, leftOut: seq<Tx>, d: SignerData) {
    var e := Expected(selected, leftOut, d.signer);
    e.Some? ==> e.value == d.sequence
  }

  /** What the proposer remembers says which sequences it expects. */
  ghost predicate Recalls(seqs: map<Signer, Uint64>, selected: seq<Tx>, leftOut: seq<Tx>) {
    forall s :: RecallsAt(seqs, Expected(selected, leftOut, s), s)
  }

  ghost predicate RecallsAt(seqs: map<Signer, Uint64>, expected: Option<Uint64>, s: Signer) {
    if s in seqs then expected == Some(Plus(seqs[s], 1)) else expected.None?
  }

  lemma RecallsMeans(seqs: map<Signer, Uint64>, selected: seq<Tx>, leftOut: seq<Tx>, tx: Tx)
    requires Recalls(seqs, selected, leftOut)
    ensures InSequence(seqs, Ordering(tx)) <==> AsExpected(selected, leftOut, tx)
  {
    forall k | 0 <= k < |Ordering(tx)|
      ensures var d := Ordering(tx)[k];
              SignsAsExpected(selected, leftOut, d) <==> (d.signer in seqs ==> Plus(seqs[d.signer], 1) == d.sequence)
    {
      var s := Ordering(tx)[k].signer;
      assert RecallsAt(seqs, Expected(selected, leftOut, s), s);
    }
  }

  lemma {:induction false} SequencesAppended(txs: seq<Tx>, tx: Tx, s: Signer)
    ensures var noted := Noted(Ordering(tx));
            && LastSequence(txs + [tx], s) == (if s in noted then Some(noted[s]) else LastSequence(txs, s))
            && FirstSequence(txs + [tx], s)
               == if FirstSequence(txs, s).None? && s in noted then Some(noted[s]) else FirstSequence(txs, s)
  {
    assert (txs + [tx])[..|txs|] == txs;
  }

  lemma RecallsSelected(seqs: map<Signer, Uint64>, selected: seq<Tx>, leftOut: seq<Tx>, tx: Tx)
    requires Recalls(seqs, selected, leftOut)
    ensures Recalls(Updated(seqs, Noted(Ordering(tx)), true), selected + [tx], leftOut)
  {
    var seqs' := Updated(seqs, Noted(Ordering(tx)), true);
    forall s ensures RecallsAt(seqs', Expected(selected + [tx], leftOut, s), s) {
      assert RecallsAt(seqs, Expected(selected, leftOut, s), s);
      SequencesAppended(selected, tx, s);
    }
  }

  lemma RecallsLeftOut(seqs: map<Signer, Uint64>, selected: seq<Tx>, leftOut: seq<Tx>, tx: Tx)
    requires Recalls(seqs, selected, leftOut)
    ensures Recalls(Updated(seqs, Noted(Ordering(tx)), false), selected, leftOut + [tx])
  {
    var noted := Noted(Ordering(tx));
    forall s ensures RecallsAt(Updated(seqs, noted, false), Expected(selected, leftOut + [tx], s), s) {
      assert RecallsAt(seqs, Expected(selected, leftOut, s), s);
      SequencesAppended(leftOut, tx, s);
      if s in noted {
        PredSucc(noted[s]);
      }
    }
  }

  // ---------------------------------------------------------------------------
  // Walks over the mempool
  // ---------------------------------------------------------------------------

  /** What has become of the transactions offered so far, and the branches around them. */
  datatype Walk<V> = Walk(fates: seq<Fate>, branches: seq<V>)

  predicate Passed(fate: Fate) {
    fate == Selected || fate == LeftOut
  }

  /** The last transaction passed, and a limit is reached. */
  ghost predicate Ends(l: Limits, pool: seq<Tx>, fates: seq<Fate>)
    requires |fates| <= |pool|
  {
    fates != [] && Passed(fates[|fates| - 1]) && Filled(l, Having(pool, fates, Selected))
  }

  predicate Unsigned(tx: Tx) {
    !tx.unordered && tx.signers.None?
  }

  /** The fate of the next transaction, and the branch after it. */
  ghost predicate Meets<V>(verify: (V, Tx) -> Verdict<V>, l: Limits, pool: seq<Tx>, fates: seq<Fate>, fate: Fate,
                           before: V, after: V)
    requires |fates| < |pool|
  {
    var tx := pool[|fates|];
    && !Ends(l, pool, fates) && !Unsigned(tx)
    && (fate == Skipped <==> !AsExpected(Having(pool, fates, Selected), Having(pool, fates, LeftOut), tx))
    && (fate == Skipped ==> after == before)
    && (fate != Skipped ==> after == verify(before, tx).state && (fate == Refused <==> !verify(before, tx).ok))
    && (Passed(fate) ==> (fate == Selected <==> Room(l, Having(pool, fates, Selected), tx)))
  }

  ghost predicate IsWalk<V>(verify: (V, Tx) -> Verdict<V>, v: V, l: Limits, pool: seq<Tx>, w: Walk<V>) {
    && |w.branches| == |w.fates| + 1 && |w.fates| <= |pool| && w.branches[0] == v
    && forall i :: 0 <= i < |w.fates| ==>
         Meets(verify, l, pool, w.fates[..i], w.fates[i], w.branches[i], w.branches[i + 1])
  }

  /** A walk that goes as far as it can. */
  ghost predicate IsWhole<V>(verify: (V, Tx) -> Verdict<V>, v: V, l: Limits, pool: seq<Tx>, w: Walk<V>) {
    && IsWalk(verify, v, l, pool, w)
    && (|w.fates| < |pool| ==> Ends(l, pool, w.fates) || Unsigned(pool[|w.fates|]))
  }

  lemma WalkNext<V>(verify: (V, Tx) -> Verdict<V>, v: V, l: Limits, pool: seq<Tx>, w: Walk<V>, fate: Fate, after: V)
    requires IsWalk(verify, v, l, pool, w) && |w.fates| < |pool|
    requires Meets(verify, l, pool, w.fates, fate, w.branches[|w.fates|], after)
    ensures IsWalk(verify, v, l, pool, Walk(w.fates + [fate], w.branches + [after]))
  {
    var w' := Walk(w.fates + [fate], w.branches + [after]);
    forall i | 0 <= i < |w'.fates|
      ensures Meets(verify, l, pool, w'.fates[..i], w'.fates[i], w'.branches[i], w'.branches[i + 1])
    {
      assert w'.fates[..i] == w.fates[..i];
      assert w.fates[..|w.fates|] == w.fates;
    }
  }

  /** The proposal in the making is what the walk so far says. */
  ghost predicate Tells<V>(l: Limits, pool: seq<Tx>, n: nat, w: Walk<V>, p: Proposal<V>)
    requires |w.fates| <= |pool| && |w.branches| == |w.fates| + 1 && n <= |pool|
  {
    && p.selection.txs == Having(pool, w.fates, Selected) && p.invalid == Having(pool, w.fates, Refused)
    && p.state == w.branches[|w.fates|] && Totals(p.selection, l)
    && match p.progress
       case Going =>
         && |w.fates| == n && !Ends(l, pool, w.fates)
         && Recalls(p.seqs, Having(pool, w.fates, Selected), Having(pool, w.fates, LeftOut))
       case Stopped => |w.fates| <= n && Ends(l, pool, w.fates)
       case Failed => |w.fates| < n && !Ends(l, pool, w.fates) && Unsigned(pool[|w.fates|])
  }

  /** What one step of the proposer makes of the next transaction. */
  function FateOf<V>(p: Proposal<V>, l: Limits, tx: Tx, verdict: Verdict<V>): Fate {
    if !InSequence(p.seqs, Ordering(tx)) then Skipped
    else if !verdict.ok then Refused
    else if Fits(p.selection, l, tx) then Selected
    else LeftOut
  }

  lemma OfferedMeets<V>(verify: (V, Tx) -> Verdict<V>, l: Limits, pool: seq<Tx>, w: Walk<V>, p: Proposal<V>)
    requires |w.fates| < |pool| && |w.branches| == |w.fates| + 1 && Tells(l, pool, |w.fates|, w, p)
    requires p.progress == Going && !Unsigned(pool[|w.fates|])
    ensures var tx := pool[|w.fates|];
            var verdict := verify(p.state, tx);
            Meets(verify, l, pool, w.fates, FateOf(p, l, tx, verdict), p.state, Offered(p, l, tx, verdict).state)
  {
    var tx := pool[|w.fates|];
    TotalsMean(p.selection, l, tx);
    RecallsMeans(p.seqs, Having(pool, w.fates, Selected), Having(pool, w.fates, LeftOut), tx);
  }

  lemma OfferedTells<V>(l: Limits, pool: seq<Tx>, w: Walk<V>, p: Proposal<V>, verdict: Verdict<V>)
    requires |w.fates| < |pool| && |w.branches| == |w.fates| + 1 && Tells(l, pool, |w.fates|, w, p)
    requires p.progress == Going && !Unsigned(pool[|w.fates|])
    ensures var tx := pool[|w.fates|];
            var p' := Offered(p, l, tx, verdict);
            Tells(l, pool, |w.fates| + 1, Walk(w.fates + [FateOf(p, l, tx, verdict)], w.branches + [p'.state]), p')
  {
    var tx := pool[|w.fates|];
    var fate := FateOf(p, l, tx, verdict);
    var selected, leftOut := Having(pool, w.fates, Selected), Having(pool, w.fates, LeftOut);
    HavingNext(pool, w.fates, fate, Selected);
    HavingNext(pool, w.fates, fate, LeftOut);
    HavingNext(pool, w.fates, fate, Refused);
    TotalsMean(p.selection, l, tx);
    TotalsMean(Add(p.selection, l, tx), l, tx);
    if fate == Selected {
      RecallsSelected(p.seqs, selected, leftOut, tx);
    } else if fate == LeftOut {
      RecallsLeftOut(p.seqs, selected, leftOut, tx);
    }
  }

  /**
   * Every transaction that the mempool offers is skipped, refused, selected or left out, for the reasons that
   * `Meets` gives; the offers end when a limit is reached. What is proposed are the selected ones, and what is
   * removed from the mempool are the refused ones.
   */
  lemma {:induction false} ProposedWalks<V>(verify: (V, Tx) -> Verdict<V>, v: V, l: Limits, pool: seq<Tx>, n: nat)
    returns (w: Walk<V>)
    requires n <= |pool|
    ensures IsWalk(verify, v, l, pool, w) && Tells(l, pool, n, w, Proposed(verify, v, l, pool, n))
  {
    if n == 0 {
      w := Walk([], [v]);
    } else {
      w := ProposedWalks(verify, v, l, pool, n - 1);
      var p := Proposed(verify, v, l, pool, n - 1);
      if p.progress == Going && !Unsigned(pool[n - 1]) {
        var verdict := verify(p.state, pool[n - 1]);
        OfferedMeets(verify, l, pool, w, p);
        OfferedTells(l, pool, w, p, verdict);
        var fate, after := FateOf(p, l, pool[n - 1], verdict), Offered(p, l, pool[n - 1], verdict).state;
        WalkNext(verify, v, l, pool, w, fate, after);
        w := Walk(w.fates + [fate], w.branches + [after]);
      }
    }
  }

  /** The fates of earlier transactions decide that of the next. */
  lemma {:induction false} SameWalk<V>(verify: (V, Tx) -> Verdict<V>, v: V, l: Limits, pool: seq<Tx>, w: Walk<V>,
                                       w': Walk<V>, n: nat)
    requires IsWalk(verify, v, l, pool, w) && IsWalk(verify, v, l, pool, w') && n <= |w.fates| && n <= |w'.fates|
    ensures w.fates[..n] == w'.fates[..n] && w.branches[n] == w'.branches[n]
  {
    if n > 0 {
      SameWalk(verify, v, l, pool, w, w', n - 1);
      assert Meets(verify, l, pool, w.fates[..n - 1], w.fates[n - 1], w.branches[n - 1], w.branches[n]);
      assert Meets(verify, l, pool, w'.fates[..n - 1], w'.fates[n - 1], w'.branches[n - 1], w'.branches[n]);
      assert w.fates[..n] == w.fates[..n - 1] + [w.fates[n - 1]];
      assert w'.fates[..n] == w'.fates[..n - 1] + [w'.fates[n - 1]];
    }
  }

  /** A walk that is longer than another went on from its end. */
  lemma GoesOn<V>(verify: (V, Tx) -> Verdict<V>, v: V, l: Limits, pool: seq<Tx>, w: Walk<V>, w': Walk<V>)
    requires IsWalk(verify, v, l, pool, w) && IsWalk(verify, v, l, pool, w') && |w.fates| < |w'.fates|
    ensures !Ends(l, pool, w.fates) && !Unsigned(pool[|w.fates|])
  {
    var n := |w.fates|;
    SameWalk(verify, v, l, pool, w, w', n);
    assert w.fates[..n] == w.fates;
    assert Meets(verify, l, pool, w'.fates[..n], w'.fates[n], w'.branches[n], w'.branches[n + 1]);
  }

  /** A walk that goes as far as it can is not a part of a longer one. */
  lemma NotLonger<V>(verify: (V, Tx) -> Verdict<V>, v: V, l: Limits, pool: seq<Tx>, w: Walk<V>, w': Walk<V>)
    requires IsWhole(verify, v, l, pool, w) && IsWalk(verify, v, l, pool, w')
    ensures |w'.fates| <= |w.fates|
  {
    if |w.fates| < |w'.fates| {
      GoesOn(verify, v, l, pool, w, w');
    }
  }

  /** Proposed are exactly the selected transactions of any walk that goes as far as it can. */
  lemma WholeWalk<V>(verify: (V, Tx) -> Verdict<V>, v: V, l: Limits, pool: seq<Tx>, w: Walk<V>)
    requires IsWhole(verify, v, l, pool, w)
    ensures var p := Proposed(verify, v, l, pool, |pool|);
            && p.selection.txs == Having(pool, w.fates, Selected) && p.invalid == Having(pool, w.fates, Refused)
            && (p.progress == Failed <==>
                  |w.fates| < |pool| && !Ends(l, pool, w.fates) && Unsigned(pool[|w.fates|]))
  {
    var w' := ProposedWalks(verify, v, l, pool, |pool|);
    NotLonger(verify, v, l, pool, w, w');
    NotLonger(verify, v, l, pool, w', w);
    SameWalk(verify, v, l, pool, w, w', |w.fates|);
    assert w.fates[..|w.fates|] == w.fates && w'.fates[..|w'.fates|] == w'.fates;
  }

  /** There is such a walk over every mempool. */
  lemma WholeWalkExists<V>(verify: (V, Tx) -> Verdict<V>, v: V, l: Limits, pool: seq<Tx>) returns (w: Walk<V>)
    ensures IsWhole(verify, v, l, pool, w)
  {
    w := ProposedWalks(verify, v, l, pool, |pool|);
  }

  // ---------------------------------------------------------------------------
  // Without a mempool
  // ---------------------------------------------------------------------------

  /** Transactions are selected or left out for lack of room only, until a limit is reached. */
  ghost predicate IsPick(l: Limits, txs: seq<Tx>, fates: seq<Fate>) {
    && |fates| <= |txs|
    && forall i :: 0 <= i < |fates| ==> PicksAt(l, txs, fates[..i], fates[i])
  }

  ghost predicate PicksAt(l: Limits, txs: seq<Tx>, fates: seq<Fate>, fate: Fate)
    requires |fates| < |txs|
  {
    && !Ends(l, txs, fates)
    && fate == if Room(l, Having(txs, fates, Selected), txs[|fates|]) then Selected else LeftOut
  }

  lemma {:induction false} PickedPicks(l: Limits, txs: seq<Tx>, n: nat) returns (fates: seq<Fate>)
    requires n <= |txs|
    ensures IsPick(l, txs, fates) && |fates| <= n && (|fates| < n ==> Ends(l, txs, fates))
    ensures Picked(l, txs, n).txs == Having(txs, fates, Selected) && Totals(Picked(l, txs, n), l)
  {
    fates := [];
    if n > 0 {
      fates := PickedPicks(l, txs, n - 1);
      var s := Picked(l, txs, n - 1);
      TotalsMean(s, l, txs[n - 1]);
      if !Ends(l, txs, fates) {
        var fate := if Room(l, s.txs, txs[n - 1]) then Selected else LeftOut;
        HavingNext(txs, fates, fate, Selected);
        PickNext(l, txs, fates, fate);
        fates := fates + [fate];
      }
    }
  }

  lemma PickNext(l: Limits, txs: seq<Tx>, fates: seq<Fate>, fate: Fate)
    requires IsPick(l, txs, fates) && |fates| < |txs| && PicksAt(l, txs, fates, fate)
    ensures IsPick(l, txs, fates + [fate])
  {
    forall i | 0 <= i < |fates| + 1 ensures PicksAt(l, txs, (fates + [fate])[..i], (fates + [fate])[i]) {
      assert (fates + [fate])[..i] == fates[..i];
      assert fates[..|fates|] == fates;
    }
  }
}
