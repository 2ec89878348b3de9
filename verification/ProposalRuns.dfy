/** The default proposal handlers with the verifier that the application uses: `runTx` on the proposal's branch. */
module ProposalRuns {
  import opened Bytes
  import opened Branches
  import opened GasMeters
  import opened Transactions
  import opened Application
  import opened ProposalProperties
  import opened Options
  import P = Proposals

  /**
   * `PrepareProposalVerifyTx` and `ProcessProposalVerifyTx`: what `runTx` says about the encoded
   * transaction, and the writes that it leaves on the branch of a store, also when it fails late.
   */
  function RunVerifier(h: Handlers, c: Ctx, base: State, bytes: P.Tx -> Option<Key>): (Writes,
                       P.Tx) -> P.Verdict<Writes>
  {
    (w, tx) =>
      match bytes(tx)
      case None => P.Verdict(false, w)
      case Some(raw) =>
        var s := Apply(base, w);
        P.Verdict(Passes(h, TxCtx(h, c, s), s, raw, false), w + AnteWrites(h, TxCtx(h, c, s), s, raw))
  }

  /** Verifies a transaction of a proposal on the branch of its mode. */
  method VerifyTx(app: BaseApp, v: Volatile, tx: P.Tx, bytes: P.Tx -> Option<Key>) returns (v': Volatile, ok: bool)
    requires v.ctx.mode == Prepare || v.ctx.mode == Mode.Process
    ensures v' == v.(writes := v'.writes)
    ensures P.Verdict(ok, v'.writes) == RunVerifier(app.h, v.ctx, Apply(app.cms.working, v.parent), bytes)(v.writes, tx)
  {
    match bytes(tx) {
      case None => return v, false;
      case Some(raw) => v', ok := app.RunTx(v, raw, false);
    }
  }

  /**
   * In the store, the ante handler checks and increments the sequences of the signers: it accepts
   * exactly what `Verified` accepts, and its writes change the sequences as `Verified` does.
   */
  ghost predicate SequenceAnte(h: Handlers, c: Ctx, bytes: P.Tx -> Option<Key>, seqs: State -> Accounts,
                               sound: P.Tx -> bool)
  {
    forall tx, s :: AnteChecks(h, c, bytes, seqs, sound, tx, s)
  }

  ghost predicate AnteChecks(
    h: Handlers, c: Ctx, bytes: P.Tx -> Option<Key>, seqs: State -> Accounts, sound: P.Tx -> bool, tx: P.Tx, s: State)
  {
    var e := Verified(sound, seqs(s), tx);
    match bytes(tx)
    case None => !e.ok
    case Some(raw) =>
      var ctx, admitted := TxCtx(h, c, s), Admitted(h, c.mode, raw);
      && (admitted.Some? && h.ante(ctx, admitted.value, s).status == Done <==> e.ok)
      && seqs(Apply(s, AnteWrites(h, ctx, s, raw))) == e.state
  }

  /** While a proposal is looked at, nothing fails after the ante handler. */
  ghost predicate NeverFailsLate(h: Handlers) {
    && (forall raw :: h.decode(raw).Some? ==> h.decode(raw).value.reflects)
    && (forall ctx: Ctx, tx, state, gas ::
          ctx.mode == Prepare || ctx.mode == Mode.Process ==> h.post(ctx, tx, true, state, gas).status == Done)
  }

  function RunSide(h: Handlers, c: Ctx, base: State, bytes: P.Tx -> Option<Key>,
                   seqs: State -> Accounts): Side<Writes>
  {
    Side(RunVerifier(h, c, base, bytes), map[], w => seqs(Apply(base, w)))
  }

  /** With such an ante handler, `runTx` is a verifier that checks sequences. */
  lemma RunChecksSequences(
    h: Handlers, c: Ctx, base: State, bytes: P.Tx -> Option<Key>, seqs: State -> Accounts, sound: P.Tx -> bool)
    requires (c.mode == Prepare || c.mode == Mode.Process) && SequenceAnte(h, c, bytes, seqs, sound)
    requires NeverFailsLate(h)
    ensures ChecksSequences(RunSide(h, c, base, bytes, seqs), sound)
  {
    forall w, tx ensures ChecksSequence(RunSide(h, c, base, bytes, seqs), sound, w, tx) {
      var s := Apply(base, w);
      assert AnteChecks(h, c, bytes, seqs, sound, tx, s);
      if bytes(tx).Some? {
        var raw := bytes(tx).value;
        ProposalCheck(h, TxCtx(h, c, s), s, raw, false);
        ApplyTwice(base, w, AnteWrites(h, TxCtx(h, c, s), s, raw));
      }
    }
  }

  /**
   * A node prepares a proposal in its prepare context, another processes it in its process
   * context. If their stores hold the same sequences, what is proposed without an error is accepted.
   */
  method NodesAgree(
    h: Handlers, prepare: Ctx, base: State, process: Ctx, base': State, bytes: P.Tx -> Option<Key>,
    seqs: State -> Accounts, ghost sound: P.Tx -> bool, maxTxBytes: int, maxGas: Option<int>,
    requested: Option<seq<P.Tx>>, mempool: Option<seq<P.Tx>>, removalFails: P.Tx -> bool)
    returns (txs: Option<seq<P.Tx>>, accepted: bool)
    requires prepare.mode == Prepare && process.mode == Mode.Process && seqs(base) == seqs(base') && NeverFailsLate(h)
    requires SequenceAnte(h, prepare, bytes, seqs, sound) && SequenceAnte(h, process, bytes, seqs, sound)
    requires -P.TWO_63 <= MaxGas(maxGas) < P.TWO_63
    ensures accepted <==> txs.Some?
    ensures txs.Some? <==>
              && requested.Some?
              && (mempool.Some? ==>
                    var p := P.Proposed(RunVerifier(h, prepare, base, bytes), map[], P.LimitsOf(maxTxBytes, maxGas),
                                        mempool.value, |mempool.value|);
                    p.progress != P.Failed && forall i :: 0 <= i < |p.invalid| ==> !removalFails(p.invalid[i]))
    ensures txs.Some? && mempool.Some? ==>
              txs.value == P.Proposed(RunVerifier(h, prepare, base, bytes), map[], P.LimitsOf(maxTxBytes, maxGas),
                                      mempool.value, |mempool.value|).selection.txs
  {
    RunChecksSequences(h, prepare, base, bytes, seqs, sound);
    RunChecksSequences(h, process, base', bytes, seqs, sound);
    ApplyNothing(base);
    ApplyNothing(base');
    txs, accepted := ProposeAndProcess(RunSide(h, prepare, base, bytes, seqs), RunSide(h, process, base', bytes, seqs),
                                       sound, maxTxBytes, maxGas, requested, mempool, removalFails);
  }

  function Solo(id: nat, signer: P.Signer, sequence: P.Uint64): P.Tx {
    P.Tx(id, false, Some([P.SignerData(signer, sequence)]), 1, 1)
  }

  /**
   * A transaction that passes the ante handler and fails after it is refused, but its sequence
   * stays counted on the proposer's branch. The signer's next transaction is then proposed alone,
   * and the validator, for whom it is out of sequence, rejects the proposal.
   */
  lemma CountedButRefused(
    h: Handlers, prepare: Ctx, process: Ctx, base: State, bytes: P.Tx -> Option<Key>, seqs: State -> Accounts,
    sound: P.Tx -> bool, signer: P.Signer, k: P.Uint64, maxGas: int)
    requires prepare.mode == Prepare && process.mode == Mode.Process
    requires SequenceAnte(h, prepare, bytes, seqs, sound) && SequenceAnte(h, process, bytes, seqs, sound)
    requires signer in seqs(base) && seqs(base)[signer] == k
    requires var verify := RunVerifier(h, prepare, base, bytes);
             var first, next := Solo(0, signer, k), Solo(1, signer, P.Plus(k, 1));
             sound(first) && !verify(map[], first).ok && verify(verify(map[], first).state, next).ok
    ensures var first, next := Solo(0, signer, k), Solo(1, signer, P.Plus(k, 1));
            var verify := RunVerifier(h, prepare, base, bytes);
            && P.Proposed(verify, map[], P.Limits(10, 0), [first, next], 2).selection.txs == [next]
            && P.Replayed(RunVerifier(h, process, base, bytes), map[], maxGas, [next]).None?
  {
    var verify := RunVerifier(h, prepare, base, bytes);
    var first, next := Solo(0, signer, k), Solo(1, signer, P.Plus(k, 1));
    var l, pool := P.Limits(10, 0), [first, next];
    var p0 := P.Proposed(verify, map[], l, pool, 0);
    var p1 := P.Proposed(verify, map[], l, pool, 1);
    assert p1 == P.Offered(p0, l, first, verify(map[], first));
    assert p1.seqs == map[] && p1.selection.txs == [] && p1.progress == P.Going;
    var p2 := P.Proposed(verify, map[], l, pool, 2);
    assert p2 == P.Offered(p1, l, next, verify(p1.state, next));
    OutOfSequence(h, process, base, bytes, seqs, sound, next);
  }

  lemma OutOfSequence(
    h: Handlers, process: Ctx, base: State, bytes: P.Tx -> Option<Key>, seqs: State -> Accounts,
    sound: P.Tx -> bool, tx: P.Tx)
    requires process.mode == Mode.Process && SequenceAnte(h, process, bytes, seqs, sound)
    requires !Matching(seqs(base), P.Ordering(tx))
    ensures !RunVerifier(h, process, base, bytes)(map[], tx).ok
    ensures forall maxGas :: P.Replayed(RunVerifier(h, process, base, bytes), map[], maxGas, [tx]).None?
  {
    ApplyNothing(base);
    assert AnteChecks(h, process, bytes, seqs, sound, tx, base);
    assert [tx][..0] == [];
  }
  // ---------------------------------------------------------------------------
  // An application with a post handler that fails
  // ---------------------------------------------------------------------------

  /** Two transactions of one signer, of which the post handler refuses the first. */
  function LateFailing(): Handlers {
    Handlers(
      _ => Params(None, []),
      raw => if raw == [1] || raw == [2] then Some(Tx([[]], true, raw)) else None,
      _ => true,
      (_, tx: Tx, s: State) =>
        if tx.other == [1] then
          if [0] !in s && [1] !in s then Step(Done, map[[0] := Some([])], Infinite(0))
          else Step(Failed, map[], Infinite(0))
        else
          if [0] in s && [1] !in s then Step(Done, map[[1] := Some([])], Infinite(0))
          else Step(Failed, map[], Infinite(0)),
      (_, _, _, _, gas) => Step(Done, map[], gas),
      (_, tx: Tx, _, _, gas) => Step(if tx.other == [1] then Failed else Done, map[], gas),
      (_, _, _) => Some(map[]), (_, _) => Some(map[]), (_, _) => Some(map[]),
      _ => Some(map[]), (_, _, _) => Some(map[]), _ => [])
  }

  function LateBytes(tx: P.Tx): Option<Key> {
    if tx == Solo(0, "a", 0) then Some([1]) else if tx == Solo(1, "a", 1) then Some([2]) else None
  }

  function LateSequences(s: State): Accounts {
    map["a" := if [1] in s then 2 else if [0] in s then 1 else 0]
  }

  function LateSound(tx: P.Tx): bool {
    tx == Solo(0, "a", 0) || tx == Solo(1, "a", 1)
  }

  lemma LateAnteChecks(c: Ctx, tx: P.Tx, s: State)
    requires c.mode != ReCheck
    ensures AnteChecks(LateFailing(), c, LateBytes, LateSequences, LateSound, tx, s)
  {
    var signers := P.Ordering(tx);
    if LateSound(tx) {
      assert signers[..0] == [];
      assert P.Noted(signers) == map["a" := signers[0].sequence];
      assert Bumped(signers) == map["a" := P.Plus(signers[0].sequence, 1)];
      assert Matching(LateSequences(s), signers) <==> LateSequences(s)["a"] == signers[0].sequence;
      ApplyNothing(s);
    }
  }

  /** The first transaction is refused late and the second passes after it. */
  lemma LateRuns(c: Ctx)
    requires c.mode == Prepare
    ensures var verify := RunVerifier(LateFailing(), c, map[], LateBytes);
            && verify(map[], Solo(0, "a", 0)) == P.Verdict(false, map[[0] := Some([])])
            && verify(map[[0] := Some([])], Solo(1, "a", 1)).ok
  {
    var h, one, two := LateFailing(), [1], [2];
    assert one[0] != two[0];
    ApplyNothing(map[]);
    var w: Writes := map[[0] := Some([])];
    var s: State := Apply(map[], w);
    assert map[] + w == w;
    assert [0] in s && [1] !in s;
    assert LateBytes(Solo(0, "a", 0)) == Some(one) && LateBytes(Solo(1, "a", 1)) == Some(two);
    assert AnteWrites(h, TxCtx(h, c, map[]), map[], one) == w;
    assert !Passes(h, TxCtx(h, c, map[]), map[], one, false);
    assert Passes(h, TxCtx(h, c, s), s, two, false);
  }

  /** The hypotheses of `CountedButRefused` are met. */
  lemma RefusalHappens(c: Ctx)
    requires c.mode != ReCheck
    ensures SequenceAnte(LateFailing(), c, LateBytes, LateSequences, LateSound)
    ensures c.mode == Prepare ==>
              var verify := RunVerifier(LateFailing(), c, map[], LateBytes);
              var first, next := Solo(0, "a", 0), Solo(1, "a", 1);
              !verify(map[], first).ok && verify(verify(map[], first).state, next).ok
  {
    forall tx, s ensures AnteChecks(LateFailing(), c, LateBytes, LateSequences, LateSound, tx, s) {
      LateAnteChecks(c, tx, s);
    }
    if c.mode == Prepare {
      LateRuns(c);
    }
  }
}
