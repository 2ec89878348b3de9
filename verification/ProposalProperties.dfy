/** What the default proposals are like, and why validators accept them. */
module ProposalProperties {
  import opened Proposals
  import opened Hiding
  import opened Options

  // ---------------------------------------------------------------------------
  // Size and gas
  // ---------------------------------------------------------------------------

  function SizeSum(txs: seq<Tx>): nat {
    if txs == [] then 0 else SizeSum(txs[..|txs| - 1]) + txs[|txs| - 1].size
  }

  lemma Appended(txs: seq<Tx>, tx: Tx)
    ensures SizeSum(txs + [tx]) == SizeSum(txs) + tx.size && GasSum(txs + [tx]) == GasSum(txs) + tx.gas
    ensures GasOf(txs + [tx]) == Plus(GasOf(txs), tx.gas)
  {
    assert (txs + [tx])[..|txs|] == txs;
  }

  /** No sum of sizes wraps around: none of them comes close to it, or not even all of them together. */
  predicate SizesOk(txs: seq<Tx>, maxTxBytes: nat) {
    SizeSum(txs) < TWO_64 || forall i :: 0 <= i < |txs| ==> txs[i].size + maxTxBytes <= TWO_64
  }

  predicate GasOk(txs: seq<Tx>, maxGas: nat) {
    GasSum(txs) < TWO_64 || forall i :: 0 <= i < |txs| ==> txs[i].gas + maxGas <= TWO_64
  }

  lemma PlusSmall(a: Uint64, b: Uint64)
    requires a + b < TWO_64
    ensures Plus(a, b) == a + b
  {
  }

  lemma {:induction false} SumsGrow(txs: seq<Tx>, n: nat)
    requires n < |txs|
    ensures SizeSum(txs[..n + 1]) == SizeSum(txs[..n]) + txs[n].size && SizeSum(txs[..n + 1]) <= SizeSum(txs)
    ensures GasSum(txs[..n + 1]) == GasSum(txs[..n]) + txs[n].gas && GasSum(txs[..n + 1]) <= GasSum(txs)
    decreases |txs| - n
  {
    assert txs[..n + 1] == txs[..n] + [txs[n]];
    Appended(txs[..n], txs[n]);
    if n + 1 == |txs| {
      assert txs[..n + 1] == txs;
    } else {
      SumsGrow(txs, n + 1);
    }
  }

  /** What the selection becomes when a transaction passes verification. */
  function Chosen(s: Selection, l: Limits, tx: Tx): Selection {
    if Fits(s, l, tx) then Add(s, l, tx) else s
  }

  /** A selection among the first `n` transactions counts their true size, which is within the limit. */
  ghost predicate SizeKept(s: Selection, l: Limits, txs: seq<Tx>, n: nat)
    requires n <= |txs|
  {
    s.bytes == SizeSum(s.txs) <= l.maxTxBytes && SizeSum(s.txs) <= SizeSum(txs[..n])
  }

  ghost predicate GasKept(s: Selection, l: Limits, txs: seq<Tx>, n: nat)
    requires n <= |txs|
  {
    s.gas == GasSum(s.txs) <= l.maxBlockGas && GasSum(s.txs) <= GasSum(txs[..n])
  }

  lemma ChosenSize(s: Selection, l: Limits, txs: seq<Tx>, n: nat)
    requires n < |txs| && SizesOk(txs, l.maxTxBytes) && SizeKept(s, l, txs, n)
    requires s.bytes < l.maxTxBytes || s.bytes == 0
    ensures SizeKept(s, l, txs, n + 1) && SizeKept(Chosen(s, l, txs[n]), l, txs, n + 1)
  {
    SumsGrow(txs, n);
    PlusSmall(s.bytes, txs[n].size);
    PlusSmall(txs[n].size, s.bytes);
    Appended(s.txs, txs[n]);
  }

  lemma ChosenGas(s: Selection, l: Limits, txs: seq<Tx>, n: nat)
    requires n < |txs| && GasOk(txs, l.maxBlockGas) && GasKept(s, l, txs, n) && s.gas < l.maxBlockGas
    ensures GasKept(s, l, txs, n + 1) && GasKept(Chosen(s, l, txs[n]), l, txs, n + 1)
  {
    SumsGrow(txs, n);
    PlusSmall(s.gas, txs[n].gas);
    PlusSmall(txs[n].gas, s.gas);
    Appended(s.txs, txs[n]);
  }

  /** A step leaves the selection alone or chooses the transaction; it goes on only if there is room. */
  lemma OfferedSelects<V>(p: Proposal<V>, l: Limits, tx: Tx, verdict: Verdict<V>)
    requires p.progress == Going
    ensures var p' := Offered(p, l, tx, verdict);
            p'.selection == p.selection
            || (p'.selection == Chosen(p.selection, l, tx) && (p'.progress == Going ==> !Full(p'.selection, l)))
  {
  }

  /** The selected transactions fit into the proposal, for any mempool and any verifier. */
  lemma {:induction false} SizeWithin<V>(verify: (V, Tx) -> Verdict<V>, v: V, l: Limits, pool: seq<Tx>, n: nat)
    requires n <= |pool| && SizesOk(pool, l.maxTxBytes)
    ensures var p := Proposed(verify, v, l, pool, n);
            && SizeKept(p.selection, l, pool, n)
            && (p.progress == Going ==> p.selection.bytes < l.maxTxBytes || p.selection.bytes == 0)
  {
    if n > 0 {
      SizeWithin(verify, v, l, pool, n - 1);
      var p := Proposed(verify, v, l, pool, n - 1);
      SumsGrow(pool, n - 1);
      if p.progress == Going {
        OfferedSelects(p, l, pool[n - 1], verify(p.state, pool[n - 1]));
        ChosenSize(p.selection, l, pool, n - 1);
      }
    }
  }

  /** So does their gas: a positive limit on it is kept. */
  lemma {:induction false} GasWithin<V>(verify: (V, Tx) -> Verdict<V>, v: V, l: Limits, pool: seq<Tx>, n: nat)
    requires n <= |pool| && l.maxBlockGas > 0 && GasOk(pool, l.maxBlockGas)
    ensures var p := Proposed(verify, v, l, pool, n);
            GasKept(p.selection, l, pool, n) && (p.progress == Going ==> p.selection.gas < l.maxBlockGas)
  {
    if n > 0 {
      GasWithin(verify, v, l, pool, n - 1);
      var p := Proposed(verify, v, l, pool, n - 1);
      SumsGrow(pool, n - 1);
      if p.progress == Going {
        OfferedSelects(p, l, pool[n - 1], verify(p.state, pool[n - 1]));
        ChosenGas(p.selection, l, pool, n - 1);
      }
    }
  }

  /** Without a mempool the limits are kept as well. */
  lemma {:induction false} PickedWithin(l: Limits, txs: seq<Tx>, n: nat)
    requires n <= |txs|
    ensures SizesOk(txs, l.maxTxBytes) ==> SizeKept(Picked(l, txs, n), l, txs, n)
    ensures l.maxBlockGas > 0 && GasOk(txs, l.maxBlockGas) ==> GasKept(Picked(l, txs, n), l, txs, n)
  {
    if n > 0 {
      PickedWithin(l, txs, n - 1);
      var s := Picked(l, txs, n - 1);
      SumsGrow(txs, n - 1);
      if n == 1 || !Full(s, l) {
        if SizesOk(txs, l.maxTxBytes) {
          ChosenSize(s, l, txs, n - 1);
        }
        if l.maxBlockGas > 0 && GasOk(txs, l.maxBlockGas) {
          ChosenGas(s, l, txs, n - 1);
        }
      }
    }
  }

  /** A transaction with more gas than `GasOk` allows can be selected beyond the limit: the sum wraps around. */
  lemma GasWraps(maxBlockGas: Uint64, gas: Uint64)
    requires gas + maxBlockGas > TWO_64
    ensures var first := Tx(0, true, None, TWO_64 - gas, 1);
            var second := Tx(1, true, None, gas, 1);
            var p := Proposed((_: (), _: Tx) => Verdict(true, ()), (), Limits(10, maxBlockGas), [first, second], 2);
            p.selection.txs == [first, second] && GasSum(p.selection.txs) == TWO_64 > maxBlockGas
  {
    var first := Tx(0, true, None, TWO_64 - gas, 1);
    var second := Tx(1, true, None, gas, 1);
    var verify := (_: (), _: Tx) => Verdict(true, ());
    var l := Limits(10, maxBlockGas);
    var p0 := Proposed(verify, (), l, [first, second], 0);
    PlusSmall(first.gas, 0);
    PlusSmall(0, first.gas);
    var p1 := Proposed(verify, (), l, [first, second], 1);
    assert p1 == Offered(p0, l, first, Verdict(true, ()));
    assert p1.selection == Selection(1, first.gas, [first]) && p1.progress == Going;
    var p2 := Proposed(verify, (), l, [first, second], 2);
    assert p2 == Offered(p1, l, second, Verdict(true, ()));
    assert Plus(second.gas, first.gas) == 0;
    assert p2.selection.txs == [first] + [second];
    Appended([], first);
    Appended([first], second);
    assert [] + [first] == [first];
  }

  // ---------------------------------------------------------------------------
  // Sequences
  // ---------------------------------------------------------------------------

  /** The sequence of the last ordered transaction that a signer has among `txs`. */
  function LastSequence(txs: seq<Tx>, s: Signer): Option<Uint64> {
    if txs == [] then None
    else
      var noted := Noted(Ordering(txs[|txs| - 1]));
      if s in noted then Some(noted[s]) else LastSequence(txs[..|txs| - 1], s)
  }

  /** The ordered transactions of each signer have consecutive sequences. */
  predicate Consecutive(txs: seq<Tx>) {
    txs == [] ||
    var rest, noted := txs[..|txs| - 1], Noted(Ordering(txs[|txs| - 1]));
    && Consecutive(rest)
    && forall s :: s in noted && LastSequence(rest, s).Some? ==> noted[s] == Plus(LastSequence(rest, s).value, 1)
  }

  /** The proposer remembers the last sequence of every signer of a selected transaction. */
  ghost predicate Remembers(seqs: map<Signer, Uint64>, txs: seq<Tx>) {
    forall s :: LastSequence(txs, s).Some? ==> s in seqs && seqs[s] == LastSequence(txs, s).value
  }

  /** A noted sequence is that of the last time the signer occurs in the transaction. */
  lemma {:induction false} NotedOccurs(signers: seq<SignerData>, s: Signer) returns (i: nat)
    requires s in Noted(signers)
    ensures i < |signers| && signers[i] == SignerData(s, Noted(signers)[s])
    ensures forall j :: i < j < |signers| ==> signers[j].signer != s
  {
    var n := |signers| - 1;
    if signers[n].signer == s {
      return n;
    }
    i := NotedOccurs(signers[..n], s);
  }

  lemma {:induction false} SignerNoted(signers: seq<SignerData>, i: nat)
    requires i < |signers|
    ensures signers[i].signer in Noted(signers)
  {
    var n := |signers| - 1;
    if i < n {
      SignerNoted(signers[..n], i);
    }
  }

  lemma ConsecutiveNext(seqs: map<Signer, Uint64>, txs: seq<Tx>, tx: Tx)
    requires Consecutive(txs) && Remembers(seqs, txs) && InSequence(seqs, Ordering(tx))
    ensures Consecutive(txs + [tx]) && Remembers(seqs + Noted(Ordering(tx)), txs + [tx])
  {
    assert (txs + [tx])[..|txs|] == txs;
    var noted := Noted(Ordering(tx));
    forall s | s in noted && LastSequence(txs, s).Some? ensures noted[s] == Plus(LastSequence(txs, s).value, 1) {
      var i := NotedOccurs(Ordering(tx), s);
    }
  }

  ghost predicate SequencesKept<V>(p: Proposal<V>) {
    Consecutive(p.selection.txs) && (p.progress == Going ==> Remembers(p.seqs, p.selection.txs))
  }

  lemma OfferedKeepsSequences<V>(p: Proposal<V>, l: Limits, tx: Tx, verdict: Verdict<V>)
    requires SequencesKept(p) && p.progress == Going
    ensures SequencesKept(Offered(p, l, tx, verdict))
  {
    if InSequence(p.seqs, Ordering(tx)) {
      ConsecutiveNext(p.seqs, p.selection.txs, tx);
    }
  }

  /** For any mempool order and any verifier, the sequences of each signer are consecutive in a proposal. */
  lemma {:induction false} SequencesConsecutive<V>(verify: (V, Tx) -> Verdict<V>, v: V, l: Limits, pool: seq<Tx>,
                                                   n: nat)
    requires n <= |pool|
    ensures var p := Proposed(verify, v, l, pool, n);
            Consecutive(p.selection.txs) && (p.progress == Going ==> Remembers(p.seqs, p.selection.txs))
  {
    if n > 0 {
      SequencesConsecutive(verify, v, l, pool, n - 1);
      var p := Proposed(verify, v, l, pool, n - 1);
      if p.progress == Going {
        OfferedKeepsSequences(p, l, pool[n - 1], verify(p.state, pool[n - 1]));
      }
    }
  }

  // ---------------------------------------------------------------------------
  // Agreement
  // ---------------------------------------------------------------------------

  type Accounts = map<Signer, Uint64>

  predicate Matching(a: Accounts, signers: seq<SignerData>) {
    forall i :: 0 <= i < |signers| ==> signers[i].signer in a && a[signers[i].signer] == signers[i].sequence
  }

  function Bumped(signers: seq<SignerData>): map<Signer, Uint64> {
    map s | s in Noted(signers) :: Plus(Noted(signers)[s], 1)
  }

  /**
   * Verification by an ante handler that accepts an ordered transaction exactly if the sequence
   * of each of its (distinct) signers is the stored one, which it increments. An unordered
   * transaction touches no sequence. `sound` stands for all checks that do not depend on the store.
   */
  function Verified(sound: Tx -> bool, a: Accounts, tx: Tx): Verdict<Accounts> {
    if !sound(tx) || (!tx.unordered && tx.signers.None?) || !Matching(a, Ordering(tx)) then Verdict(false, a)
    else Verdict(true, a + Bumped(Ordering(tx)))
  }

  /**
   * The store `a` of the proposer, which keeps the writes of transactions it did not select, and
   * the store `q` of a validator that has verified the selected ones: a signer that the proposer
   * remembers is one ahead of what it remembers in `q`, any other is the same in both.
   */
  ghost predicate Apart(a: Accounts, q: Accounts, seqs: map<Signer, Uint64>) {
    && a.Keys == q.Keys
    && forall s :: s in q ==> if s in seqs then q[s] == Plus(seqs[s], 1) else q[s] == a[s]
  }

  lemma PredSucc(x: Uint64)
    ensures Plus(Pred(x), 1) == x
  {
  }

  /** Whatever the proposer verifies in sequence, the validator's store matches too. */
  lemma ValidatorMatches(a: Accounts, q: Accounts, seqs: map<Signer, Uint64>, signers: seq<SignerData>)
    requires Apart(a, q, seqs) && InSequence(seqs, signers) && Matching(a, signers)
    ensures Matching(q, signers)
  {
    forall i | 0 <= i < |signers| ensures signers[i].signer in q && q[signers[i].signer] == signers[i].sequence {
      assert signers[i].signer in a.Keys;
    }
  }

  lemma BumpedKeys(a: Accounts, signers: seq<SignerData>)
    requires Matching(a, signers)
    ensures (a + Bumped(signers)).Keys == a.Keys
    ensures forall s :: s in Noted(signers) ==> s in a && a[s] == Noted(signers)[s]
  {
    forall s | s in Noted(signers) ensures s in a && a[s] == Noted(signers)[s] {
      var i := NotedOccurs(signers, s);
    }
  }

  /** A selected transaction moves both stores, any other verified one only the proposer's. */
  lemma StaysApart(a: Accounts, q: Accounts, seqs: map<Signer, Uint64>, signers: seq<SignerData>, added: bool)
    requires Apart(a, q, seqs) && InSequence(seqs, signers) && Matching(a, signers)
    ensures Apart(a + Bumped(signers), if added then q + Bumped(signers) else q, Updated(seqs, Noted(signers), added))
  {
    ValidatorMatches(a, q, seqs, signers);
    BumpedKeys(a, signers);
    BumpedKeys(q, signers);
    forall s | s in Noted(signers) ensures Plus(Pred(Noted(signers)[s]), 1) == Noted(signers)[s] {
      PredSucc(Noted(signers)[s]);
    }
  }

  lemma {:induction false} ReplayedNext<V>(verify: (V, Tx) -> Verdict<V>, v: V, maxGas: int, txs: seq<Tx>, w: V, tx: Tx)
    requires Replayed(verify, v, maxGas, txs) == Some(w) && verify(w, tx).ok
    requires maxGas > 0 ==> Plus(GasOf(txs), tx.gas) <= maxGas
    ensures Replayed(verify, v, maxGas, txs + [tx]) == Some(verify(w, tx).state)
  {
    assert (txs + [tx])[..|txs|] == txs;
    Appended(txs, tx);
  }

  function MaxGas(maxGas: Option<int>): int {
    if maxGas.None? then 0 else maxGas.value
  }

  /** A node that looks at a proposal: its verifier, what that starts from, and the sequences in a branch. */
  datatype Side<!V> = Side(verify: (V, Tx) -> Verdict<V>, start: V, accounts: V -> Accounts)

  /** The verifier accepts and counts sequences as `Verified` does, whatever else its branch holds. */
  ghost predicate ChecksSequences<V(!new)>(side: Side<V>, sound: Tx -> bool) {
    forall v, tx :: ChecksSequence(side, sound, v, tx)
  }

  ghost predicate ChecksSequence<V>(side: Side<V>, sound: Tx -> bool, v: V, tx: Tx) {
    var d, e := side.verify(v, tx), Verified(sound, side.accounts(v), tx);
    d.ok == e.ok && side.accounts(d.state) == e.state
  }

  /** What holds between a proposal in the making and the validator's replay of it. */
  ghost predicate Replayable<V, W>(accounts: V -> Accounts, b: Side<W>, maxGas: int, p: Proposal<V>) {
    forall z: int {:trigger Unfold(z)} :: Guard(z) ==> exists w: int {:trigger Fold(w)} ::
      && Fold(w)
      && var q := Replayed(b.verify, b.start, maxGas, p.selection.txs);
         q.Some? && ReplayedTo(accounts, b, maxGas, p, q.value)
  }

  /** The branch of the validator that the selected transactions lead to. */
  ghost predicate ReplayedTo<V, W>(accounts: V -> Accounts, b: Side<W>, maxGas: int, p: Proposal<V>, q: W) {
    && (maxGas > 0 ==> p.selection.gas == GasOf(p.selection.txs))
    && (p.progress == Going ==> Apart(accounts(p.state), b.accounts(q), p.seqs))
  }

  lemma ReplayableParts<V, W>(accounts: V -> Accounts, b: Side<W>, maxGas: int, p: Proposal<V>)
    requires Replayable(accounts, b, maxGas, p)
    ensures var q := Replayed(b.verify, b.start, maxGas, p.selection.txs);
            q.Some? && ReplayedTo(accounts, b, maxGas, p, q.value)
  {
    assert Unfold(0);
  }

  lemma ReplayableWhole<V, W>(accounts: V -> Accounts, b: Side<W>, maxGas: int, p: Proposal<V>, q: W)
    requires Replayed(b.verify, b.start, maxGas, p.selection.txs) == Some(q) && ReplayedTo(accounts, b, maxGas, p, q)
    ensures Replayable(accounts, b, maxGas, p)
  {
    assert Unfold(0) && Fold(0);
  }

  lemma ReplayableStart<V, W>(a: Side<V>, b: Side<W>, maxGas: int, l: Limits, pool: seq<Tx>)
    requires a.accounts(a.start) == b.accounts(b.start)
    ensures Replayable(a.accounts, b, maxGas, Proposed(a.verify, a.start, l, pool, 0))
  {
    ReplayableWhole(a.accounts, b, maxGas, Proposed(a.verify, a.start, l, pool, 0), b.start);
  }

  lemma ReplayableKept<V, W>(accounts: V -> Accounts, b: Side<W>, maxGas: int, p: Proposal<V>, p': Proposal<V>)
    requires Replayable(accounts, b, maxGas, p) && p'.selection == p.selection
    requires p'.progress == Going ==>
              p.progress == Going && accounts(p'.state) == accounts(p.state) && p'.seqs == p.seqs
    ensures Replayable(accounts, b, maxGas, p')
  {
    ReplayableParts(accounts, b, maxGas, p);
    ReplayableWhole(accounts, b, maxGas, p', Replayed(b.verify, b.start, maxGas, p.selection.txs).value);
  }

  /** A transaction that the proposer has verified and selected passes for the validator too. */
  lemma {:induction false} SelectedReplays<W(!new)>(
    b: Side<W>, sound: Tx -> bool, maxGas: int, l: Limits, s: Selection, q: W, tx: Tx)
    requires ChecksSequences(b, sound) && Verified(sound, b.accounts(q), tx).ok && Fits(s, l, tx)
    requires Replayed(b.verify, b.start, maxGas, s.txs) == Some(q)
    requires maxGas > 0 ==> l.maxBlockGas == maxGas && s.gas == GasOf(s.txs)
    ensures var s' := Add(s, l, tx);
            && Replayed(b.verify, b.start, maxGas, s'.txs) == Some(b.verify(q, tx).state)
            && b.accounts(b.verify(q, tx).state) == Verified(sound, b.accounts(q), tx).state
            && (maxGas > 0 ==> s'.gas == GasOf(s'.txs))
  {
    assert ChecksSequence(b, sound, q, tx);
    ReplayedNext(b.verify, b.start, maxGas, s.txs, q, tx);
    Appended(s.txs, tx);
  }

  /** A transaction that passes for the proposer. */
  lemma {:induction false} PassedStaysReplayable<V(!new), W(!new)>(
    a: Side<V>, b: Side<W>, sound: Tx -> bool, maxGas: int, l: Limits, p: Proposal<V>, tx: Tx)
    requires ChecksSequences(a, sound) && ChecksSequences(b, sound) && (maxGas > 0 ==> l.maxBlockGas == maxGas)
    requires Replayable(a.accounts, b, maxGas, p) && p.progress == Going
    requires (tx.unordered || tx.signers.Some?) && InSequence(p.seqs, Ordering(tx)) && a.verify(p.state, tx).ok
    ensures Replayable(a.accounts, b, maxGas, Offered(p, l, tx, a.verify(p.state, tx)))
  {
    ReplayableParts(a.accounts, b, maxGas, p);
    var signers, added := Ordering(tx), Fits(p.selection, l, tx);
    var x, p' := a.accounts(p.state), Offered(p, l, tx, a.verify(p.state, tx));
    var q := Replayed(b.verify, b.start, maxGas, p.selection.txs).value;
    assert ChecksSequence(a, sound, p.state, tx);
    ValidatorMatches(x, b.accounts(q), p.seqs, signers);
    StaysApart(x, b.accounts(q), p.seqs, signers, added);
    if added {
      SelectedReplays(b, sound, maxGas, l, p.selection, q, tx);
      ReplayableWhole(a.accounts, b, maxGas, p', b.verify(q, tx).state);
    } else {
      ReplayableWhole(a.accounts, b, maxGas, p', q);
    }
  }

  lemma {:induction false} StaysReplayable<V(!new), W(!new)>(
    a: Side<V>, b: Side<W>, sound: Tx -> bool, maxGas: int, l: Limits, p: Proposal<V>, tx: Tx)
    requires ChecksSequences(a, sound) && ChecksSequences(b, sound) && (maxGas > 0 ==> l.maxBlockGas == maxGas)
    requires Replayable(a.accounts, b, maxGas, p) && p.progress == Going
    ensures Replayable(a.accounts, b, maxGas, Offered(p, l, tx, a.verify(p.state, tx)))
  {
    var verdict := a.verify(p.state, tx);
    if (tx.unordered || tx.signers.Some?) && InSequence(p.seqs, Ordering(tx)) && verdict.ok {
      PassedStaysReplayable(a, b, sound, maxGas, l, p, tx);
    } else {
      assert ChecksSequence(a, sound, p.state, tx);
      ReplayableKept(a.accounts, b, maxGas, p, Offered(p, l, tx, verdict));
    }
  }

  /**
   * A proposer and a validator that both check sequences, and that start from the same ones: every
   * proposal of the default handler is accepted by the default handler.
   */
  lemma {:induction false} Agreement<V(!new), W(!new)>(
    a: Side<V>, b: Side<W>, sound: Tx -> bool, maxGas: int, l: Limits, pool: seq<Tx>, n: nat)
    requires ChecksSequences(a, sound) && ChecksSequences(b, sound) && a.accounts(a.start) == b.accounts(b.start)
    requires n <= |pool| && (maxGas > 0 ==> l.maxBlockGas == maxGas)
    ensures Replayable(a.accounts, b, maxGas, Proposed(a.verify, a.start, l, pool, n))
  {
    if n == 0 {
      ReplayableStart(a, b, maxGas, l, pool);
    } else {
      Agreement(a, b, sound, maxGas, l, pool, n - 1);
      var p := Proposed(a.verify, a.start, l, pool, n - 1);
      if p.progress == Going {
        StaysReplayable(a, b, sound, maxGas, l, p, pool[n - 1]);
      }
    }
  }

  /** A proposer prepares and a validator processes: what is proposed without an error is accepted. */
  method ProposeAndProcess<V(!new), W(!new)>(
    a: Side<V>, b: Side<W>, ghost sound: Tx -> bool, maxTxBytes: int, maxGas: Option<int>,
    requested: Option<seq<Tx>>, mempool: Option<seq<Tx>>, removalFails: Tx -> bool)
    returns (txs: Option<seq<Tx>>, accepted: bool)
    requires ChecksSequences(a, sound) && ChecksSequences(b, sound) && a.accounts(a.start) == b.accounts(b.start)
    requires -TWO_63 <= MaxGas(maxGas) < TWO_63
    ensures accepted <==> txs.Some?
    ensures txs.Some? <==>
              && requested.Some?
              && (mempool.Some? ==>
                    var p := Proposed(a.verify, a.start, LimitsOf(maxTxBytes, maxGas), mempool.value, |mempool.value|);
                    p.progress != Failed && forall i :: 0 <= i < |p.invalid| ==> !removalFails(p.invalid[i]))
    ensures txs.Some? && mempool.Some? ==>
              var p := Proposed(a.verify, a.start, LimitsOf(maxTxBytes, maxGas), mempool.value, |mempool.value|);
              txs.value == p.selection.txs
  {
    txs := PrepareProposal(a.verify, a.start, maxTxBytes, maxGas, requested, mempool, removalFails);
    if txs.None? {
      return None, false;
    }
    if mempool.Some? {
      Agreement(a, b, sound, MaxGas(maxGas), LimitsOf(maxTxBytes, maxGas), mempool.value, |mempool.value|);
      ghost var p := Proposed(a.verify, a.start, LimitsOf(maxTxBytes, maxGas), mempool.value, |mempool.value|);
      ReplayableParts(a.accounts, b, MaxGas(maxGas), p);
    }
    accepted := ProcessProposal(b.verify, b.start, maxGas, txs.value, mempool.Some?);
  }
}
