/** Execution of one transaction (`runTx` and `runMsgs` in `baseapp/baseapp.go`). */
module Transactions {
  import opened Bytes
  import opened Branches
  import opened GasMeters
  import opened Options

  datatype Mode = Check | ReCheck | Simulate | Prepare | Process | Finalize

  type Int64 = x: int | -0x8000_0000_0000_0000 <= x < 0x8000_0000_0000_0000

  /** The consensus parameters; `maxGas` is `None` when there are no block parameters. */
  datatype Params = Params(maxGas: Option<Int64>, other: Key)

  datatype Header = Header(height: int, time: int, hash: Key, extra: Key, appHash: Key)

  datatype Ctx = Ctx(mode: Mode, header: Header, params: Params)

  datatype Tx = Tx(msgs: seq<Key>, reflects: bool, other: Key)

  datatype Status = Done | Failed | Panicked

  /** What a handler did to the branch and the gas meter it was given. */
  datatype Step = Step(status: Status, writes: Writes, gas: Meter)

  /**
   * What the application supplies. Every handler is a deterministic function of its context, of
   * the store it reads and of the gas meter; the ante handler starts with a new infinite meter
   * and returns the meter that is in force after it. A handler that is not set is one that
   * changes nothing.
   */
  datatype Handlers = Handlers(
    params: State -> Params,
    decode: Key -> Option<Tx>,
    validMsg: Key -> bool,
    ante: (Ctx, Tx, State) -> Step,
    msg: (Ctx, Tx, nat, State, Meter) -> Step,
    post: (Ctx, Tx, bool, State, Meter) -> Step,
    preBlock: (Ctx, seq<Key>, State) -> Option<Writes>,
    beginBlock: (Ctx, State) -> Option<Writes>,
    endBlock: (Ctx, State) -> Option<Writes>,
    storeParams: Params -> Option<Writes>,
    initChain: (Header, Key, State) -> Option<Writes>,
    appHash: State -> Key)

  /** `validateBasicTxMsgs`: at least one message, and all of them valid and routable. */
  predicate BasicOk(h: Handlers, tx: Tx) {
    tx.msgs != [] && forall i :: 0 <= i < |tx.msgs| ==> h.validMsg(tx.msgs[i])
  }

  /** The transaction that a raw one stands for, if it gets as far as the ante handler. */
  function Admitted(h: Handlers, mode: Mode, raw: Key): Option<Tx> {
    match h.decode(raw)
    case None => None
    case Some(tx) => if mode == ReCheck || BasicOk(h, tx) then Some(tx) else None
  }

  /** The context of a transaction has the parameters that are in force in its store. */
  function TxCtx(h: Handlers, c: Ctx, s: State): Ctx {
    c.(params := h.params(s))
  }

  // ---------------------------------------------------------------------------
  // What a transaction does, without branches
  // ---------------------------------------------------------------------------

  /** Messages from the i-th on, each on top of the writes of the ones before. */
  function MsgsFrom(h: Handlers, c: Ctx, tx: Tx, i: nat, s: State, w: Writes, gas: Meter): Step
    requires i <= |tx.msgs|
    decreases |tx.msgs| - i
  {
    if i == |tx.msgs| then Step(Done, w, gas)
    else
      var r := h.msg(c, tx, i, Apply(s, w), gas);
      if r.status == Done then MsgsFrom(h, c, tx, i + 1, s, w + r.writes, r.gas)
      else Step(r.status, w + r.writes, r.gas)
  }

  /** Messages are executed when a block is finalized and in simulations only. */
  function Messages(h: Handlers, c: Ctx, tx: Tx, s: State, gas: Meter): Step {
    if c.mode == Finalize || c.mode == Simulate then MsgsFrom(h, c, tx, 0, s, map[], gas)
    else Step(Done, map[], gas)
  }

  /** All messages and then the post handler, which runs unless a message panicked. */
  function Execution(h: Handlers, c: Ctx, tx: Tx, s: State, gas: Meter): Step {
    var m := if tx.reflects then Messages(h, c, tx, s, gas) else Step(Failed, map[], gas);
    if m.status == Panicked then m
    else
      var p := h.post(c, tx, m.status == Done, Apply(s, m.writes), m.gas);
      Step(if p.status == Done then m.status else p.status, m.writes + p.writes, p.gas)
  }

  datatype Settled = Settled(writes: Writes, blockGas: Meter, ok: bool)

  /**
   * The effect of one transaction of a block on the store `s` and the block gas meter `g`.
   * `stuck` says that the mempool could not remove it.
   */
  function Settle(h: Handlers, c: Ctx, s: State, g: Meter, raw: Key, stuck: bool): Settled {
    if IsOutOfGas(g) then Settled(map[], g, false)
    else
      match Admitted(h, Finalize, raw)
      case None => Settled(map[], Charged(g, 0), false)
      case Some(tx) =>
        var a := h.ante(c, tx, s);
        if a.status != Done then Settled(map[], Charged(g, ConsumedToLimit(a.gas)), false)
        else if stuck then Settled(a.writes, Charged(g, ConsumedToLimit(a.gas)), false)
        else
          var e := Execution(h, c, tx, Apply(s, a.writes), a.gas);
          var charge := ConsumedToLimit(e.gas);
          if e.status == Done && !Overdraws(g, charge) then Settled(a.writes + e.writes, Charged(g, charge), true)
          else Settled(a.writes, Charged(g, charge), false)
  }

  /** What a transaction that is started costs: zero if it does not reach the ante handler. */
  function ChargeOf(h: Handlers, c: Ctx, s: State, raw: Key, stuck: bool): nat {
    match Admitted(h, Finalize, raw)
    case None => 0
    case Some(tx) =>
      var a := h.ante(c, tx, s);
      if a.status != Done || stuck then ConsumedToLimit(a.gas)
      else ConsumedToLimit(Execution(h, c, tx, Apply(s, a.writes), a.gas).gas)
  }

  /**
   * A transaction writes nothing, exactly the writes of the ante handler, or those and all writes
   * of its messages and of the post handler; the last exactly if it succeeds. It is charged once,
   * whatever happens, unless the block had no gas left to start it.
   */
  lemma TxAtomic(h: Handlers, c: Ctx, s: State, g: Meter, raw: Key, stuck: bool)
    requires c.mode == Finalize
    ensures var e := Settle(h, c, s, g, raw, stuck);
            && e.blockGas == (if IsOutOfGas(g) then g else Charged(g, ChargeOf(h, c, s, raw, stuck)))
            && (e.ok ==> !IsOutOfGas(g) && !Overdraws(g, ChargeOf(h, c, s, raw, stuck)))
            && (!e.ok ==> e.writes == map[] || e.writes == AnteWrites(h, c, s, raw))
            && (e.ok ==>
                  var tx := Admitted(h, Finalize, raw).value;
                  var a := h.ante(c, tx, s);
                  var x := Execution(h, c, tx, Apply(s, a.writes), a.gas);
                  a.status == Done && x.status == Done && e.writes == a.writes + x.writes)
  {
  }

  /** The ante handler's part in any mode: its writes if it accepts the transaction, else nothing. */
  function AnteWrites(h: Handlers, c: Ctx, s: State, raw: Key): Writes {
    match Admitted(h, c.mode, raw)
    case None => map[]
    case Some(tx) => if h.ante(c, tx, s).status == Done then h.ante(c, tx, s).writes else map[]
  }

  /** Whether a transaction passes in a mode that does not charge block gas. */
  predicate Passes(h: Handlers, c: Ctx, s: State, raw: Key, stuck: bool) {
    match Admitted(h, c.mode, raw)
    case None => false
    case Some(tx) =>
      var a := h.ante(c, tx, s);
      a.status == Done && !(c.mode == Check && stuck)
      && Execution(h, c, tx, Apply(s, a.writes), a.gas).status == Done
  }

  /** Verifying a transaction for a proposal comes down to the ante handler if the post handler does not fail then. */
  lemma ProposalCheck(h: Handlers, c: Ctx, s: State, raw: Key, stuck: bool)
    requires c.mode == Prepare || c.mode == Process
    requires forall tx, state, gas :: h.post(c, tx, true, state, gas).status == Done
    ensures Passes(h, c, s, raw, stuck) <==>
              var tx := Admitted(h, c.mode, raw);
              tx.Some? && tx.value.reflects && h.ante(c, tx.value, s).status == Done
  {
  }

  // ---------------------------------------------------------------------------
  // runTx
  // ---------------------------------------------------------------------------

  /** How control leaves the body of `runTx`. */
  datatype Flow = Returned(err: bool) | Panicking

  /** One call of `runTx`: the branch of the mode's state, the two meters and the deferred charge. */
  class TxRun {
    const h: Handlers
    const ctx: Ctx
    const base: State
    var ms: Writes
    var blockGas: Meter
    var gas: Meter
    var blockGasConsumed: bool

    constructor (h: Handlers, c: Ctx, base: State, ms: Writes, blockGas: Meter)
      ensures this.h == h && this.base == base && this.ctx == TxCtx(h, c, Apply(base, ms))
      ensures this.ms == ms && this.blockGas == blockGas && gas == Infinite(0) && !blockGasConsumed
    {
      this.h, this.base, this.ms, this.blockGas := h, base, ms, blockGas;
      ctx := TxCtx(h, c, Apply(base, ms));
      gas, blockGasConsumed := Infinite(0), false;
    }

    /** Charges the gas of the transaction to the block, at most once. */
    method ConsumeBlockGas() returns (panicked: bool)
      modifies this`blockGas, this`blockGasConsumed
      ensures blockGasConsumed
      ensures old(blockGasConsumed) ==> !panicked && blockGas == old(blockGas)
      ensures !old(blockGasConsumed) ==>
                panicked == Overdraws(old(blockGas), ConsumedToLimit(gas))
                && blockGas == Charged(old(blockGas), ConsumedToLimit(gas))
    {
      panicked := false;
      if !blockGasConsumed {
        blockGasConsumed := true;
        panicked := Overdraws(blockGas, ConsumedToLimit(gas));
        blockGas := Charged(blockGas, ConsumedToLimit(gas));
      }
    }

    /** Runs the messages in order on one branch until one of them fails. */
    method RunMsgs(tx: Tx) returns (status: Status, msCache: Writes)
      modifies this`gas
      ensures Step(status, msCache, gas) == Messages(h, ctx, tx, Apply(base, ms), old(gas))
    {
      status, msCache := Done, map[];
      var i := 0;
      while i < |tx.msgs| && (ctx.mode == Finalize || ctx.mode == Simulate)
        invariant 0 <= i <= |tx.msgs| && status == Done
        invariant i == 0 || ctx.mode == Finalize || ctx.mode == Simulate
        invariant i == 0 ==> msCache == map[] && gas == old(gas)
        invariant MsgsFrom(h, ctx, tx, i, Apply(base, ms), msCache, gas)
                  == MsgsFrom(h, ctx, tx, 0, Apply(base, ms), map[], old(gas))
        decreases |tx.msgs| - i
      {
        var r := h.msg(ctx, tx, i, Apply(Apply(base, ms), msCache), gas);
        msCache, gas := msCache + r.writes, r.gas;
        if r.status != Done {
          return r.status, msCache;
        }
        i := i + 1;
      }
    }

    /** Messages and post handler on one branch, which is written to the mode's state if nothing fails. */
    method Execute(tx: Tx) returns (flow: Flow)
      requires !blockGasConsumed
      modifies this`ms, this`gas, this`blockGas, this`blockGasConsumed
      ensures var e := Execution(h, ctx, tx, Apply(base, old(ms)), old(gas));
              && gas == e.gas
              && (flow == Returned(false) <==>
                  e.status == Done && (ctx.mode == Finalize ==> !Overdraws(old(blockGas), ConsumedToLimit(e.gas))))
              && (blockGasConsumed <==> e.status == Done && ctx.mode == Finalize)
              && blockGas ==
                 (if blockGasConsumed then Charged(old(blockGas), ConsumedToLimit(e.gas)) else old(blockGas))
              && ms == (if flow == Returned(false) && ctx.mode == Finalize then old(ms) + e.writes else old(ms))
    {
      var status, msCache := Failed, map[];
      if tx.reflects {
        status, msCache := RunMsgs(tx);
      }
      if status == Panicked {
        return Panicking;
      }
      var p := h.post(ctx, tx, status == Done, Apply(Apply(base, ms), msCache), gas);
      msCache, gas := msCache + p.writes, p.gas;
      if p.status == Panicked {
        return Panicking;
      }
      if p.status == Failed {
        return Returned(true);
      }
      if status == Done && ctx.mode == Finalize {
        var panicked := ConsumeBlockGas();
        if panicked {
          return Panicking;
        }
        ms := ms + msCache;
      }
      return Returned(status != Done);
    }

    /** The body of `runTx` between the deferred calls and their execution. */
    method Process(raw: Key, stuck: bool) returns (flow: Flow)
      requires !blockGasConsumed && gas == Infinite(0)
      modifies this`ms, this`gas, this`blockGas, this`blockGasConsumed
      ensures ctx.mode != Finalize ==>
                !blockGasConsumed && blockGas == old(blockGas)
                && ms == old(ms) + AnteWrites(h, ctx, Apply(base, old(ms)), raw)
                && (flow == Returned(false) <==> Passes(h, ctx, Apply(base, old(ms)), raw, stuck))
      ensures ctx.mode == Finalize && !IsOutOfGas(old(blockGas)) ==>
                var e := Settle(h, ctx, Apply(base, old(ms)), old(blockGas), raw, stuck);
                && ms == old(ms) + e.writes && (flow == Returned(false) <==> e.ok)
                && (e.ok ==> blockGasConsumed)
                && e.blockGas == (if blockGasConsumed then blockGas else Charged(blockGas, ConsumedToLimit(gas)))
    {
      MergeTwice(ms, map[], map[]);
      var decoded := h.decode(raw);
      if decoded.None? {
        return Returned(true);
      }
      var tx := decoded.value;
      if ctx.mode != ReCheck && !BasicOk(h, tx) {
        return Returned(true);
      }
      var a := h.ante(ctx, tx, Apply(base, ms));
      gas := a.gas;
      if a.status == Panicked {
        return Panicking;
      }
      if a.status == Failed {
        return Returned(true);
      }
      ApplyTwice(base, ms, a.writes);
      MergeTwice(ms, a.writes, Execution(h, ctx, tx, Apply(Apply(base, ms), a.writes), a.gas).writes);
      ms := ms + a.writes;
      if (ctx.mode == Check || ctx.mode == Finalize) && stuck {
        return Returned(true);
      }
      flow := Execute(tx);
    }

    /** `runTx`: the body, then the deferred charge, then the recovery from a panic in either. */
    method Run(raw: Key, stuck: bool) returns (ok: bool)
      requires !blockGasConsumed && gas == Infinite(0)
      modifies this`ms, this`gas, this`blockGas, this`blockGasConsumed
      ensures ctx.mode == Finalize ==>
                var e := Settle(h, ctx, Apply(base, old(ms)), old(blockGas), raw, stuck);
                ms == old(ms) + e.writes && blockGas == e.blockGas && ok == e.ok
      ensures ctx.mode != Finalize ==>
                && ms == old(ms) + AnteWrites(h, ctx, Apply(base, old(ms)), raw)
                && blockGas == old(blockGas) && ok == Passes(h, ctx, Apply(base, old(ms)), raw, stuck)
    {
      if ctx.mode == Finalize && IsOutOfGas(blockGas) {
        return false;
      }
      var flow := Process(raw, stuck);
      if ctx.mode == Finalize {
        var panicked := ConsumeBlockGas();
        if panicked {
          flow := Panicking;
        }
      }
      return flow == Returned(false);
    }
  }
}
