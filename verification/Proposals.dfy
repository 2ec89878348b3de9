/** The default proposal handlers and the transaction selector (`baseapp/abci_utils.go`). */
module Proposals {
  import opened Options

  const TWO_64: int := 0x1_0000_0000_0000_0000
  const TWO_63: int := 0x8000_0000_0000_0000

  type Uint64 = x: int | 0 <= x < TWO_64

  type Signer = seq<char>

  datatype SignerData = SignerData(signer: Signer, sequence: Uint64)

  /**
   * A transaction and its encoding. `signers` is `None` when they cannot be extracted; `gas` is
   * zero for a transaction that declares none; `size` is its encoded size in a proposal.
   */
  datatype Tx = Tx(id: nat, unordered: bool, signers: Option<seq<SignerData>>, gas: Uint64, size: Uint64)

  /** Sums of unsigned numbers wrap around. */
  function Plus(a: Uint64, b: Uint64): Uint64 {
    (a as int + b as int) % TWO_64
  }

  function Pred(a: Uint64): Uint64 {
    (a as int - 1) % TWO_64
  }

  /** What verifying a transaction says, and the branch that it leaves. */
  datatype Verdict<+V> = Verdict(ok: bool, state: V)

  // ---------------------------------------------------------------------------
  // The selector
  // ---------------------------------------------------------------------------

  datatype Limits = Limits(maxTxBytes: Uint64, maxBlockGas: Uint64)

  datatype Selection = Selection(bytes: Uint64, gas: Uint64, txs: seq<Tx>)

  predicate Fits(s: Selection, l: Limits, tx: Tx) {
    && Plus(tx.size, s.bytes) <= l.maxTxBytes
    && (l.maxBlockGas > 0 ==> Plus(tx.gas, s.gas) <= l.maxBlockGas)
  }

  function Add(s: Selection, l: Limits, tx: Tx): Selection {
    Selection(Plus(s.bytes, tx.size), if l.maxBlockGas > 0 then Plus(s.gas, tx.gas) else s.gas, s.txs + [tx])
  }

  predicate Full(s: Selection, l: Limits) {
    s.bytes >= l.maxTxBytes || (l.maxBlockGas > 0 && s.gas >= l.maxBlockGas)
  }

  class TxSelector {
    var totalTxBytes: Uint64
    var totalTxGas: Uint64
    var selectedTxs: seq<Tx>

    constructor ()
      ensures Selected() == Selection(0, 0, [])
    {
      totalTxBytes, totalTxGas, selectedTxs := 0, 0, [];
    }

    function Selected(): Selection
      reads this
    {
      Selection(totalTxBytes, totalTxGas, selectedTxs)
    }

    /** Adds the transaction if there is room, and says whether to stop looking for more. */
    method SelectTxForProposal(l: Limits, tx: Tx) returns (stop: bool)
      modifies this
      ensures Selected() == if old(Fits(Selected(), l, tx)) then Add(old(Selected()), l, tx) else old(Selected())
      ensures stop <==> Full(Selected(), l)
    {
      if Plus(tx.size, totalTxBytes) <= l.maxTxBytes {
        if l.maxBlockGas > 0 {
          if Plus(tx.gas, totalTxGas) <= l.maxBlockGas {
            totalTxGas := Plus(totalTxGas, tx.gas);
            totalTxBytes := Plus(totalTxBytes, tx.size);
            selectedTxs := selectedTxs + [tx];
          }
        } else {
          totalTxBytes := Plus(totalTxBytes, tx.size);
          selectedTxs := selectedTxs + [tx];
        }
      }
      return totalTxBytes >= l.maxTxBytes || (l.maxBlockGas > 0 && totalTxGas >= l.maxBlockGas);
    }
  }

  // ---------------------------------------------------------------------------
  // What the proposer does with one transaction of the mempool
  // ---------------------------------------------------------------------------

  /** Each signer that has been seen continues its sequence. */
  predicate InSequence(seqs: map<Signer, Uint64>, signers: seq<SignerData>) {
    forall i :: 0 <= i < |signers| && signers[i].signer in seqs ==>
      Plus(seqs[signers[i].signer], 1) == signers[i].sequence
  }

  /** The sequence each signer signs with; the last one if a signer occurs twice. */
  function Noted(signers: seq<SignerData>): map<Signer, Uint64> {
    if signers == [] then map[]
    else Noted(signers[..|signers| - 1])[signers[|signers| - 1].signer := signers[|signers| - 1].sequence]
  }

  /** After an added transaction its signers continue from it; after another, new ones from just before it. */
  function Updated(seqs: map<Signer, Uint64>, noted: map<Signer, Uint64>, added: bool): map<Signer, Uint64> {
    if added then seqs + noted
    else (map s | s in noted :: Pred(noted[s])) + seqs
  }

  datatype Progress = Going | Stopped | Failed

  datatype Proposal<V> = Proposal(
    state: V, selection: Selection, seqs: map<Signer, Uint64>, invalid: seq<Tx>, progress: Progress)

  /** The signers whose sequences matter; none for an unordered transaction. */
  function Ordering(tx: Tx): seq<SignerData> {
    if tx.unordered || tx.signers.None? then [] else tx.signers.value
  }

  /** One step of the proposer: `verdict` is what the verifier says if it is asked. */
  function Offered<V>(p: Proposal<V>, l: Limits, tx: Tx, verdict: Verdict<V>): Proposal<V> {
    if !tx.unordered && tx.signers.None? then p.(progress := Failed)
    else if !InSequence(p.seqs, Ordering(tx)) then p
    else if !verdict.ok then p.(state := verdict.state, invalid := p.invalid + [tx])
    else
      var added := Fits(p.selection, l, tx);
      var selection := if added then Add(p.selection, l, tx) else p.selection;
      if Full(selection, l) then p.(state := verdict.state, selection := selection, progress := Stopped)
      else
        p.(state := verdict.state, selection := selection,
           seqs := Updated(p.seqs, Noted(Ordering(tx)), added))
  }

  /** The first `n` transactions of the mempool, in the order in which it hands them out. */
  function Proposed<V>(verify: (V, Tx) -> Verdict<V>, v: V, l: Limits, pool: seq<Tx>, n: nat): Proposal<V>
    requires n <= |pool|
  {
    if n == 0 then Proposal(v, Selection(0, 0, []), map[], [], Going)
    else
      var p := Proposed(verify, v, l, pool, n - 1);
      if p.progress != Going then p else Offered(p, l, pool[n - 1], verify(p.state, pool[n - 1]))
  }

  /** Checks the signers of a transaction against the sequences seen so far, as far as the first mismatch. */
  method CheckSigners(seqs: map<Signer, Uint64>, signers: seq<SignerData>)
    returns (shouldAdd: bool, txSignersSeqs: map<Signer, Uint64>)
    ensures shouldAdd <==> InSequence(seqs, signers)
    ensures shouldAdd ==> txSignersSeqs == Noted(signers)
  {
    txSignersSeqs := map[];
    var i := 0;
    while i < |signers|
      invariant 0 <= i <= |signers| && InSequence(seqs, signers[..i]) && txSignersSeqs == Noted(signers[..i])
    {
      var s := signers[i];
      if s.signer in seqs && Plus(seqs[s.signer], 1) != s.sequence {
        return false, txSignersSeqs;
      }
      assert signers[..i + 1][..i] == signers[..i];
      txSignersSeqs := txSignersSeqs[s.signer := s.sequence];
      i := i + 1;
    }
    assert signers[..i] == signers;
    return true, txSignersSeqs;
  }

  lemma UpdatedNext(seqs: map<Signer, Uint64>, noted: map<Signer, Uint64>, left: set<Signer>, sender: Signer,
                    added: bool)
    requires sender in left && left <= noted.Keys
    ensures var before, after := Updated(seqs, noted - left, added), Updated(seqs, noted - (left - {sender}), added);
            after == if added then before[sender := noted[sender]]
                     else if sender in before then before
                     else before[sender := Pred(noted[sender])]
  {
    assert (noted - (left - {sender})).Keys == (noted - left).Keys + {sender};
  }

  /** Updates the sequences seen, sender by sender. */
  method UpdateSequences(seqs: map<Signer, Uint64>, noted: map<Signer, Uint64>, added: bool)
    returns (seqs': map<Signer, Uint64>)
    ensures seqs' == Updated(seqs, noted, added)
  {
    seqs' := seqs;
    var left := noted.Keys;
    while left != {}
      invariant left <= noted.Keys
      invariant seqs' == Updated(seqs, noted - left, added)
      decreases |left|
    {
      var sender :| sender in left;
      UpdatedNext(seqs, noted, left, sender, added);
      if added {
        seqs' := seqs'[sender := noted[sender]];
      } else if sender !in seqs' {
        seqs' := seqs'[sender := Pred(noted[sender])];
      }
      left := left - {sender};
    }
    assert noted - left == noted;
  }

  // ---------------------------------------------------------------------------
  // PrepareProposal
  // ---------------------------------------------------------------------------

  /** The limits of a proposal; signed numbers are converted to unsigned ones, so that -1 becomes the largest. */
  function LimitsOf(maxTxBytes: int, maxGas: Option<int>): (l: Limits)
    ensures 0 <= maxTxBytes < TWO_64 ==> l.maxTxBytes == maxTxBytes
    ensures -TWO_64 <= maxTxBytes < 0 ==> l.maxTxBytes == TWO_64 + maxTxBytes
    ensures maxGas.None? ==> l.maxBlockGas == 0
    ensures maxGas.Some? && 0 <= maxGas.value < TWO_64 ==> l.maxBlockGas == maxGas.value
    ensures maxGas.Some? && -TWO_64 <= maxGas.value < 0 ==> l.maxBlockGas == TWO_64 + maxGas.value
  {
    Limits(maxTxBytes % TWO_64, if maxGas.None? then 0 else maxGas.value % TWO_64)
  }

  /** Selecting without a mempool: in order, unverified, until there is no more room. */
  function Picked(l: Limits, txs: seq<Tx>, n: nat): Selection
    requires n <= |txs|
  {
    if n == 0 then Selection(0, 0, [])
    else
      var s := Picked(l, txs, n - 1);
      if n > 1 && Full(s, l) then s else if Fits(s, l, txs[n - 1]) then Add(s, l, txs[n - 1]) else s
  }

  /** The callback that the mempool calls with one transaction after the other; `more` asks for the next. */
  method Offer<V>(verify: (V, Tx) -> Verdict<V>, selector: TxSelector, l: Limits, p: Proposal<V>, tx: Tx)
    returns (p': Proposal<V>, more: bool)
    requires selector.Selected() == p.selection && p.progress == Going
    modifies selector
    ensures p' == Offered(p, l, tx, verify(p.state, tx)) && selector.Selected() == p'.selection
    ensures more <==> p'.progress == Going
  {
    var noted := map[];
    if !tx.unordered {
      if tx.signers.None? {
        return p.(progress := Failed), false;
      }
      var shouldAdd;
      shouldAdd, noted := CheckSigners(p.seqs, tx.signers.value);
      if !shouldAdd {
        return p, true;
      }
    }
    var verdict := verify(p.state, tx);
    p' := p.(state := verdict.state);
    if !verdict.ok {
      return p'.(invalid := p.invalid + [tx]), true;
    }
    var before := |selector.selectedTxs|;
    var stop := selector.SelectTxForProposal(l, tx);
    p' := p'.(selection := selector.Selected());
    if stop {
      return p'.(progress := Stopped), false;
    }
    var seqs := UpdateSequences(p.seqs, noted, |selector.selectedTxs| != before);
    return p'.(seqs := seqs), true;
  }

  /**
   * The default handler. `requested` are the transactions sent by the consensus engine, if they
   * all decode; `mempool` is the order in which the mempool hands out its own, or `None` without
   * a mempool. Invalid transactions are removed from it, which may fail.
   */
  method PrepareProposal<V>(verify: (V, Tx) -> Verdict<V>, v: V, maxTxBytes: int, maxGas: Option<int>,
                            requested: Option<seq<Tx>>, mempool: Option<seq<Tx>>, removalFails: Tx -> bool)
    returns (txs: Option<seq<Tx>>)
    ensures requested.None? ==> txs.None?
    ensures requested.Some? && mempool.None? ==>
              txs == Some(Picked(LimitsOf(maxTxBytes, maxGas), requested.value, |requested.value|).txs)
    ensures requested.Some? && mempool.Some? ==>
              var p := Proposed(verify, v, LimitsOf(maxTxBytes, maxGas), mempool.value, |mempool.value|);
              txs == if p.progress == Failed || exists i :: 0 <= i < |p.invalid| && removalFails(p.invalid[i]) then None
                     else Some(p.selection.txs)
  {
    if requested.None? {
      return None;
    }
    var l := LimitsOf(maxTxBytes, maxGas);
    var selector := new TxSelector();
    if mempool.None? {
      PickAll(selector, l, requested.value);
      return Some(selector.selectedTxs);
    }
    var p := SelectBy(verify, v, selector, l, mempool.value);
    if p.progress == Failed {
      return None;
    }
    var removed := RemoveAll(p.invalid, removalFails);
    return if removed then Some(p.selection.txs) else None;
  }

  /** The mempool offers its transactions until the callback asks for no more. */
  method SelectBy<V>(verify: (V, Tx) -> Verdict<V>, v: V, selector: TxSelector, l: Limits, pool: seq<Tx>)
    returns (p: Proposal<V>)
    requires selector.Selected() == Selection(0, 0, [])
    modifies selector
    ensures p == Proposed(verify, v, l, pool, |pool|)
  {
    p := Proposal(v, Selection(0, 0, []), map[], [], Going);
    var i, more := 0, true;
    while i < |pool| && more
      invariant 0 <= i <= |pool| && p == Proposed(verify, v, l, pool, i)
      invariant selector.Selected() == p.selection && (more <==> p.progress == Going)
    {
      p, more := Offer(verify, selector, l, p, pool[i]);
      i := i + 1;
    }
    ProposedStops(verify, v, l, pool, i, |pool|);
  }

  method RemoveAll(invalid: seq<Tx>, removalFails: Tx -> bool) returns (ok: bool)
    ensures ok <==> forall i :: 0 <= i < |invalid| ==> !removalFails(invalid[i])
  {
    var j := 0;
    while j < |invalid|
      invariant 0 <= j <= |invalid| && forall k :: 0 <= k < j ==> !removalFails(invalid[k])
    {
      if removalFails(invalid[j]) {
        return false;
      }
      j := j + 1;
    }
    return true;
  }

  /** Once the callback has asked for no more, nothing changes. */
  lemma {:induction false} ProposedStops<V>(verify: (V, Tx) -> Verdict<V>, v: V, l: Limits, pool: seq<Tx>, i: nat,
                                            n: nat)
    requires i <= n <= |pool| && (i < n ==> Proposed(verify, v, l, pool, i).progress != Going)
    ensures Proposed(verify, v, l, pool, n) == Proposed(verify, v, l, pool, i)
  {
    if i < n {
      ProposedStops(verify, v, l, pool, i, n - 1);
    }
  }

  method PickAll(selector: TxSelector, l: Limits, txs: seq<Tx>)
    requires selector.Selected() == Selection(0, 0, [])
    modifies selector
    ensures selector.Selected() == Picked(l, txs, |txs|)
  {
    var i, stop := 0, false;
    while i < |txs| && !stop
      invariant 0 <= i <= |txs| && selector.Selected() == Picked(l, txs, i)
      invariant i > 0 ==> (stop <==> Full(selector.Selected(), l))
      invariant i == 0 ==> !stop
    {
      stop := selector.SelectTxForProposal(l, txs[i]);
      i := i + 1;
    }
    PickedStops(l, txs, i, |txs|);
  }

  lemma {:induction false} PickedStops(l: Limits, txs: seq<Tx>, i: nat, n: nat)
    requires i <= n <= |txs| && (i < n ==> i > 0 && Full(Picked(l, txs, i), l))
    ensures Picked(l, txs, n) == Picked(l, txs, i)
  {
    if i < n {
      PickedStops(l, txs, i, n - 1);
    }
  }

  // ---------------------------------------------------------------------------
  // ProcessProposal
  // ---------------------------------------------------------------------------

  /** The gas of some transactions, as an unsigned number that wraps around. */
  function GasOf(txs: seq<Tx>): Uint64 {
    if txs == [] then 0 else Plus(GasOf(txs[..|txs| - 1]), txs[|txs| - 1].gas)
  }

  function GasSum(txs: seq<Tx>): nat {
    if txs == [] then 0 else GasSum(txs[..|txs| - 1]) + txs[|txs| - 1].gas
  }

  lemma WrapsOnce(a: nat, b: nat)
    ensures (a % TWO_64 + b) % TWO_64 == (a + b) % TWO_64
  {
    var q := a / TWO_64;
    assert a + b == q * TWO_64 + (a % TWO_64 + b);
  }

  lemma {:induction false} GasOfIsSum(txs: seq<Tx>)
    ensures GasOf(txs) == GasSum(txs) % TWO_64
  {
    if txs != [] {
      GasOfIsSum(txs[..|txs| - 1]);
      WrapsOnce(GasSum(txs[..|txs| - 1]), txs[|txs| - 1].gas);
    }
  }

  /** Each transaction passes on the branch that the ones before it have left. */
  ghost predicate Verifies<V>(verify: (V, Tx) -> Verdict<V>, v: V, txs: seq<Tx>, branches: seq<V>) {
    && |branches| == |txs| + 1 && branches[0] == v
    && forall i :: 0 <= i < |txs| ==> verify(branches[i], txs[i]) == Verdict(true, branches[i + 1])
  }

  /** With a positive limit, the gas up to each transaction is within it, as far as 64 bits tell. */
  ghost predicate StaysBelow(txs: seq<Tx>, maxGas: int) {
    maxGas > 0 ==> forall i :: 0 < i <= |txs| ==> GasSum(txs[..i]) % TWO_64 <= maxGas
  }

  /** The branch after verifying all transactions in order, or `None` if the proposal is rejected. */
  function Replayed<V>(verify: (V, Tx) -> Verdict<V>, v: V, maxGas: int, txs: seq<Tx>): Option<V> {
    if txs == [] then Some(v)
    else
      match Replayed(verify, v, maxGas, txs[..|txs| - 1])
      case None => None
      case Some(w) =>
        var verdict := verify(w, txs[|txs| - 1]);
        if verdict.ok && (maxGas > 0 ==> GasOf(txs) <= maxGas) then Some(verdict.state) else None
  }

  lemma {:induction false} ReplayedVerifies<V>(verify: (V, Tx) -> Verdict<V>, v: V, maxGas: int, txs: seq<Tx>)
    returns (branches: seq<V>)
    requires Replayed(verify, v, maxGas, txs).Some?
    ensures Verifies(verify, v, txs, branches) && StaysBelow(txs, maxGas)
    ensures Replayed(verify, v, maxGas, txs) == Some(branches[|txs|])
  {
    branches := [v];
    if txs != [] {
      var rest := txs[..|txs| - 1];
      branches := ReplayedVerifies(verify, v, maxGas, rest);
      GasOfIsSum(txs);
      assert forall i :: 0 < i < |txs| ==> txs[..i] == rest[..i];
      assert txs[..|txs|] == txs;
      branches := branches + [verify(branches[|rest|], txs[|rest|]).state];
    }
  }

  lemma {:induction false} VerifiesReplayed<V>(verify: (V, Tx) -> Verdict<V>, v: V, maxGas: int, txs: seq<Tx>,
                                               branches: seq<V>)
    requires Verifies(verify, v, txs, branches) && StaysBelow(txs, maxGas)
    ensures Replayed(verify, v, maxGas, txs) == Some(branches[|txs|])
  {
    if txs != [] {
      var n := |txs| - 1;
      assert forall i :: 0 < i <= n ==> txs[..n][..i] == txs[..i];
      VerifiesReplayed(verify, v, maxGas, txs[..n], branches[..n + 1]);
      GasOfIsSum(txs);
      assert txs[..|txs|] == txs;
    }
  }

  lemma ReplayedIff<V(!new)>(verify: (V, Tx) -> Verdict<V>, v: V, maxGas: int, txs: seq<Tx>)
    ensures Replayed(verify, v, maxGas, txs).Some? <==>
              StaysBelow(txs, maxGas) && exists branches :: Verifies(verify, v, txs, branches)
  {
    if Replayed(verify, v, maxGas, txs).Some? {
      var branches := ReplayedVerifies(verify, v, maxGas, txs);
    }
    forall branches | Verifies(verify, v, txs, branches) && StaysBelow(txs, maxGas)
      ensures Replayed(verify, v, maxGas, txs).Some?
    {
      VerifiesReplayed(verify, v, maxGas, txs, branches);
    }
  }

  /**
   * The default handler accepts everything without a mempool. With one it accepts exactly if all
   * transactions pass, one after the other, and their gas never exceeds a positive limit.
   */
  method ProcessProposal<V(!new)>(verify: (V, Tx) -> Verdict<V>, v: V, maxGas: Option<int>, txs: seq<Tx>,
                                  hasMempool: bool)
    returns (accept: bool)
    ensures accept <==> !hasMempool || Replayed(verify, v, if maxGas.None? then 0 else maxGas.value, txs).Some?
    ensures accept <==>
              || !hasMempool
              || (&& (exists branches :: Verifies(verify, v, txs, branches))
                  && (maxGas.Some? ==> StaysBelow(txs, maxGas.value)))
  {
    ReplayedIff(verify, v, if maxGas.None? then 0 else maxGas.value, txs);
    if !hasMempool {
      return true;
    }
    var totalTxGas: Uint64 := 0;
    var maxBlockGas := if maxGas.None? then 0 else maxGas.value;
    var state := v;
    var i := 0;
    while i < |txs|
      invariant 0 <= i <= |txs| && Replayed(verify, v, maxBlockGas, txs[..i]) == Some(state)
      invariant maxBlockGas > 0 ==> totalTxGas == GasOf(txs[..i])
    {
      var verdict := verify(state, txs[i]);
      assert txs[..i + 1][..i] == txs[..i];
      if !verdict.ok {
        RejectedPrefix(verify, v, maxBlockGas, txs, i + 1);
        return false;
      }
      state := verdict.state;
      if maxBlockGas > 0 {
        totalTxGas := Plus(totalTxGas, txs[i].gas);
        if totalTxGas > maxBlockGas {
          RejectedPrefix(verify, v, maxBlockGas, txs, i + 1);
          return false;
        }
      }
      i := i + 1;
    }
    assert txs[..i] == txs;
    return true;
  }

  /** A proposal is rejected as soon as a prefix of it is. */
  lemma {:induction false} RejectedPrefix<V>(verify: (V, Tx) -> Verdict<V>, v: V, maxGas: int, txs: seq<Tx>, i: nat)
    requires i <= |txs| && Replayed(verify, v, maxGas, txs[..i]).None?
    ensures Replayed(verify, v, maxGas, txs).None?
  {
    if i < |txs| {
      var rest := txs[..|txs| - 1];
      assert rest[..i] == txs[..i];
      RejectedPrefix(verify, v, maxGas, rest, i);
    } else {
      assert txs[..i] == txs;
    }
  }
}
