/** What a block does to the store, and what its transactions may spend (`internalFinalizeBlock`). */
module BlockExecution {
  import opened Bytes
  import opened Branches
  import opened GasMeters
  import opened Transactions
  import opened Options

  /** `getBlockGasMeter`; a maximum below -1 panics. */
  function BlockMeter(p: Params): Option<Meter> {
    if p.maxGas.None? || p.maxGas.value == -1 || p.maxGas.value == 0 then Some(Infinite(0))
    else if p.maxGas.value < -1 then None
    else Some(Basic(p.maxGas.value, 0))
  }

  datatype Delivered = Delivered(state: State, gas: Meter, results: seq<bool>)

  /** The first `k` transactions of a block on the store `s` with the block gas meter `g`. */
  function Deliver(h: Handlers, c: Ctx, s: State, g: Meter, txs: seq<Key>, stuck: set<nat>, k: nat): (d: Delivered)
    requires k <= |txs|
    ensures |d.results| == k
  {
    if k == 0 then Delivered(s, g, [])
    else
      var d := Deliver(h, c, s, g, txs, stuck, k - 1);
      var e := Settle(h, TxCtx(h, c, d.state), d.state, d.gas, txs[k - 1], k - 1 in stuck);
      Delivered(Apply(d.state, e.writes), e.blockGas, d.results + [e.ok])
  }

  /**
   * Each transaction of a block leaves the store as it was, adds exactly the writes of the ante
   * handler, or adds those and then all writes of its messages and of the post handler; the last
   * exactly if it is reported as successful.
   */
  lemma BlockAtomic(h: Handlers, c: Ctx, s: State, g: Meter, txs: seq<Key>, stuck: set<nat>, k: nat)
    requires k < |txs| && c.mode == Finalize
    ensures var d, e := Deliver(h, c, s, g, txs, stuck, k), Deliver(h, c, s, g, txs, stuck, k + 1);
            var ctx := TxCtx(h, c, d.state);
            if e.results[k] then
              var tx := Admitted(h, Finalize, txs[k]).value;
              var a := h.ante(ctx, tx, d.state);
              var x := Execution(h, ctx, tx, Apply(d.state, a.writes), a.gas);
              a.status == Done && x.status == Done && e.state == Apply(Apply(d.state, a.writes), x.writes)
            else e.state == d.state || e.state == Apply(d.state, AnteWrites(h, ctx, d.state, txs[k]))
  {
    var d := Deliver(h, c, s, g, txs, stuck, k);
    var ctx := TxCtx(h, c, d.state);
    TxAtomic(h, ctx, d.state, d.gas, txs[k], k in stuck);
    ApplyNothing(d.state);
    if Settle(h, ctx, d.state, d.gas, txs[k], k in stuck).ok {
      var tx := Admitted(h, Finalize, txs[k]).value;
      var a := h.ante(ctx, tx, d.state);
      ApplyTwice(d.state, a.writes, Execution(h, ctx, tx, Apply(d.state, a.writes), a.gas).writes);
    }
  }

  /** What the k-th transaction costs if it is started. */
  function Cost(h: Handlers, c: Ctx, s: State, g: Meter, txs: seq<Key>, stuck: set<nat>, k: nat): nat
    requires k < |txs|
  {
    var before := Deliver(h, c, s, g, txs, stuck, k).state;
    ChargeOf(h, TxCtx(h, c, before), before, txs[k], k in stuck)
  }

  /** The k-th transaction is charged its cost unless there is no gas to start it; it succeeds within the limit only. */
  lemma Charging(h: Handlers, c: Ctx, s: State, g: Meter, txs: seq<Key>, stuck: set<nat>, k: nat)
    requires k < |txs| && c.mode == Finalize
    ensures var d, e := Deliver(h, c, s, g, txs, stuck, k), Deliver(h, c, s, g, txs, stuck, k + 1);
            ChargedOnce(d.gas, e.gas, Cost(h, c, s, g, txs, stuck, k), e.results[k])
  {
    var d := Deliver(h, c, s, g, txs, stuck, k);
    TxAtomic(h, TxCtx(h, c, d.state), d.state, d.gas, txs[k], k in stuck);
  }

  // ---------------------------------------------------------------------------
  // Gas
  // ---------------------------------------------------------------------------

  predicate ChargedOnce(gas: Meter, gas': Meter, cost: nat, ok: bool) {
    && gas' == (if IsOutOfGas(gas) then gas else Charged(gas, cost))
    && (ok ==> !IsOutOfGas(gas) && !Overdraws(gas, cost))
  }

  /** The meter of a block before each transaction and at the end, what each costs, and which succeed. */
  datatype Metering = Metering(gases: seq<Meter>, costs: seq<nat>, oks: seq<bool>)

  ghost predicate Metered(m: Metering, limit: nat) {
    && |m.gases| == |m.costs| + 1 && |m.oks| == |m.costs|
    && m.gases[0].Basic? && m.gases[0].limit == limit <= MAX_UINT64 && m.gases[0].consumed <= limit
    && forall i :: 0 <= i < |m.costs| ==> ChargedOnce(m.gases[i], m.gases[i + 1], m.costs[i], m.oks[i])
  }

  /** What the first `k` transactions are charged: those that start, each once. */
  ghost function Total(m: Metering, limit: nat, k: nat): nat
    requires Metered(m, limit) && k <= |m.costs|
  {
    if k == 0 then 0 else Total(m, limit, k - 1) + if IsOutOfGas(m.gases[k - 1]) then 0 else m.costs[k - 1]
  }

  /** What those of them that succeed are charged. */
  ghost function TotalOk(m: Metering, limit: nat, k: nat): nat
    requires Metered(m, limit) && k <= |m.costs|
  {
    if k == 0 then 0 else TotalOk(m, limit, k - 1) + if m.oks[k - 1] then m.costs[k - 1] else 0
  }

  function Min(a: nat, b: nat): nat {
    if a < b then a else b
  }

  lemma {:induction false} Conserved(m: Metering, limit: nat, k: nat)
    requires Metered(m, limit) && k <= |m.costs|
    ensures m.gases[k] == Basic(limit, Min(MAX_UINT64, m.gases[0].consumed + Total(m, limit, k)))
  {
    if k > 0 {
      Conserved(m, limit, k - 1);
      assert ChargedOnce(m.gases[k - 1], m.gases[k], m.costs[k - 1], m.oks[k - 1]);
    }
  }

  lemma {:induction false} WithinLimit(m: Metering, limit: nat, k: nat)
    requires Metered(m, limit) && k <= |m.costs|
    ensures TotalOk(m, limit, k) <= Total(m, limit, k)
    ensures m.gases[0].consumed + TotalOk(m, limit, k) <= limit
    ensures k > 0 && m.oks[k - 1] ==> m.gases[0].consumed + Total(m, limit, k) <= limit
  {
    if k > 0 {
      WithinLimit(m, limit, k - 1);
      Conserved(m, limit, k - 1);
      assert ChargedOnce(m.gases[k - 1], m.gases[k], m.costs[k - 1], m.oks[k - 1]);
    }
  }

  /** What the meter of a block with a limit shows. */
  ghost predicate GasLaws(m: Metering, limit: nat) {
    && Metered(m, limit)
    && var n := |m.costs|;
       && m.gases[n] == Basic(limit, Min(MAX_UINT64, m.gases[0].consumed + Total(m, limit, n)))
       && m.gases[0].consumed + TotalOk(m, limit, n) <= limit
       && forall k :: 0 <= k < n && m.oks[k] ==> m.gases[0].consumed + Total(m, limit, k + 1) <= limit
  }

  lemma GasLawsHold(m: Metering, limit: nat)
    requires Metered(m, limit)
    ensures GasLaws(m, limit)
  {
    Conserved(m, limit, |m.costs|);
    WithinLimit(m, limit, |m.costs|);
    forall k | 0 <= k < |m.costs| && m.oks[k] ensures m.gases[0].consumed + Total(m, limit, k + 1) <= limit {
      WithinLimit(m, limit, k + 1);
    }
  }

  lemma MeteredNext(m: Metering, limit: nat, gas: Meter, cost: nat, ok: bool)
    requires Metered(m, limit) && ChargedOnce(m.gases[|m.costs|], gas, cost, ok)
    ensures Metered(Metering(m.gases + [gas], m.costs + [cost], m.oks + [ok]), limit)
  {
  }

  /** The metering of the first `k` transactions. */
  function MeteringOf(h: Handlers, c: Ctx, s: State, g: Meter, txs: seq<Key>, stuck: set<nat>, k: nat): (m: Metering)
    requires k <= |txs|
    ensures |m.gases| == k + 1 && |m.costs| == k && |m.oks| == k && m.gases[0] == g
  {
    if k == 0 then Metering([g], [], [])
    else
      var m := MeteringOf(h, c, s, g, txs, stuck, k - 1);
      var d := Deliver(h, c, s, g, txs, stuck, k);
      Metering(m.gases + [d.gas], m.costs + [Cost(h, c, s, g, txs, stuck, k - 1)], m.oks + [d.results[k - 1]])
  }

  lemma {:induction false} MeteringEnds(h: Handlers, c: Ctx, s: State, g: Meter, txs: seq<Key>, stuck: set<nat>, k: nat)
    requires k <= |txs|
    ensures var m, d := MeteringOf(h, c, s, g, txs, stuck, k), Deliver(h, c, s, g, txs, stuck, k);
            m.gases[k] == d.gas && m.oks == d.results
  {
    if k > 0 {
      MeteringEnds(h, c, s, g, txs, stuck, k - 1);
    }
  }

  lemma {:induction false} BlockMetered(h: Handlers, c: Ctx, s: State, g: Meter, txs: seq<Key>, stuck: set<nat>, k: nat)
    requires k <= |txs| && c.mode == Finalize && g.Basic? && g.consumed <= g.limit <= MAX_UINT64
    ensures Metered(MeteringOf(h, c, s, g, txs, stuck, k), g.limit)
  {
    if k > 0 {
      BlockMetered(h, c, s, g, txs, stuck, k - 1);
      MeteringEnds(h, c, s, g, txs, stuck, k - 1);
      Charging(h, c, s, g, txs, stuck, k - 1);
      var d := Deliver(h, c, s, g, txs, stuck, k);
      var m, cost := MeteringOf(h, c, s, g, txs, stuck, k - 1), Cost(h, c, s, g, txs, stuck, k - 1);
      MeteredNext(m, g.limit, d.gas, cost, d.results[k - 1]);
    }
  }

  /**
   * In a block with a limit every transaction that starts is charged exactly once, even when the
   * charge overdraws the meter (which then stops at the largest representable amount). When a
   * transaction succeeds, all charges up to and including its own are within the limit; so those
   * whose messages persist never cost more than the limit in all.
   */
  lemma BlockGas(h: Handlers, c: Ctx, s: State, g: Meter, txs: seq<Key>, stuck: set<nat>)
    requires c.mode == Finalize && g.Basic? && g.consumed <= g.limit <= MAX_UINT64
    ensures var m, d := MeteringOf(h, c, s, g, txs, stuck, |txs|), Deliver(h, c, s, g, txs, stuck, |txs|);
            && GasLaws(m, g.limit) && |m.costs| == |txs|
            && m.gases[0] == g && m.gases[|txs|] == d.gas && m.oks == d.results
  {
    BlockMetered(h, c, s, g, txs, stuck, |txs|);
    MeteringEnds(h, c, s, g, txs, stuck, |txs|);
    GasLawsHold(MeteringOf(h, c, s, g, txs, stuck, |txs|), g.limit);
  }

  /** Once the meter of the block is exhausted, later transactions fail and change nothing. */
  lemma {:induction false} ExhaustedIsFinal(h: Handlers, c: Ctx, s: State, g: Meter, txs: seq<Key>, stuck: set<nat>,
                                            i: nat, k: nat)
    requires i <= k <= |txs| && IsOutOfGas(Deliver(h, c, s, g, txs, stuck, i).gas)
    ensures var d, e := Deliver(h, c, s, g, txs, stuck, i), Deliver(h, c, s, g, txs, stuck, k);
            e.state == d.state && e.gas == d.gas && forall j :: i <= j < k ==> !e.results[j]
  {
    if i < k {
      ExhaustedIsFinal(h, c, s, g, txs, stuck, i, k - 1);
      ApplyNothing(Deliver(h, c, s, g, txs, stuck, i).state);
    }
  }

  // ---------------------------------------------------------------------------
  // Blocks and chains
  // ---------------------------------------------------------------------------

  /** What the consensus engine sends to finalize a block. */
  datatype Request = Request(height: int, time: int, hash: Key, extra: Key, txs: seq<Key>)

  datatype Block = Block(state: State, results: seq<bool>)

  function BlockHeader(h: Handlers, last: State, req: Request): Header {
    Header(req.height, req.time, req.hash, req.extra, h.appHash(last))
  }

  /**
   * A block executed on the store `s`, where `last` is the last committed store. `None` is a
   * block that fails. The parameters that are in force after each phase set up the next.
   */
  function ExecuteBlock(h: Handlers, last: State, s: State, req: Request, stuck: set<nat>): Option<Block> {
    var c := Ctx(Finalize, BlockHeader(h, last, req), h.params(s));
    if BlockMeter(h.params(s)).None? then None
    else
      match h.preBlock(c, req.txs, s)
      case None => None
      case Some(w) => ExecuteFromBegin(h, c, Apply(s, w), req, stuck)
  }

  function ExecuteFromBegin(h: Handlers, preCtx: Ctx, s: State, req: Request, stuck: set<nat>): Option<Block> {
    var c := TxCtx(h, preCtx, s);
    if BlockMeter(c.params).None? then None
    else
      match h.beginBlock(c, s)
      case None => None
      case Some(w) =>
        var begun := Apply(s, w);
        match BlockMeter(h.params(begun))
        case None => None
        case Some(g) =>
          var d := Deliver(h, c, begun, g, req.txs, stuck, |req.txs|);
          match h.endBlock(c, d.state)
          case None => None
          case Some(e) => Some(Block(Apply(d.state, e), d.results))
  }

  /** What starts a chain; `params` are the consensus parameters to store, if any. */
  datatype Genesis = Genesis(chainId: Key, initialHeight: int, time: int, params: Option<Params>, appState: Key)

  /** The writes of `InitChain`, or `None` if it fails. */
  function GenesisWrites(h: Handlers, g: Genesis): Option<Writes> {
    var header := Header(if g.initialHeight > 1 then g.initialHeight else 0, g.time, [], [], []);
    match if g.params.None? then Some(map[]) else h.storeParams(g.params.value)
    case None => None
    case Some(w) =>
      match h.initChain(header, g.appState, Apply(map[], w))
      case None => None
      case Some(w') => Some(w + w')
  }

  /** The store after one more block; the genesis takes effect with the first. */
  function Extended(h: Handlers, g: Genesis, first: bool, last: State, req: Request): Option<State> {
    match GenesisWrites(h, g)
    case None => None
    case Some(w) =>
      match ExecuteBlock(h, last, if first then Apply(last, w) else last, req, {})
      case None => None
      case Some(b) => Some(b.state)
  }

  /** The committed store of a chain. */
  function Chain(h: Handlers, g: Genesis, blocks: seq<Request>): Option<State> {
    if blocks == [] then Some(map[])
    else
      var n := |blocks| - 1;
      match Chain(h, g, blocks[..n])
      case None => None
      case Some(last) => Extended(h, g, n == 0, last, blocks[n])
  }

  lemma {:induction false} ChainNext(h: Handlers, g: Genesis, blocks: seq<Request>, last: State, req: Request)
    requires Chain(h, g, blocks) == Some(last)
    ensures Chain(h, g, blocks + [req]) == Extended(h, g, blocks == [], last, req)
  {
    assert (blocks + [req])[..|blocks|] == blocks;
  }

  /** A chain that is not empty has a genesis that did not fail. */
  lemma {:induction false} ChainHasGenesis(h: Handlers, g: Genesis, blocks: seq<Request>)
    requires blocks != [] && Chain(h, g, blocks).Some?
    ensures GenesisWrites(h, g).Some?
  {
  }

  /**
   * Executing a block on the last committed store, with the genesis if it is the first, extends
   * the chain or fails just as the chain does.
   */
  lemma ChainGrows(h: Handlers, g: Genesis, blocks: seq<Request>, last: State, pristine: Writes, req: Request)
    requires Chain(h, g, blocks) == Some(last)
    requires if blocks == [] then GenesisWrites(h, g) == Some(pristine) else pristine == map[]
    ensures var b := ExecuteBlock(h, last, Apply(last, pristine), req, {});
            Chain(h, g, blocks + [req]) == if b.Some? then Some(b.value.state) else None
  {
    ApplyNothing(last);
    ChainNext(h, g, blocks, last, req);
    if blocks != [] {
      ChainHasGenesis(h, g, blocks);
    }
  }
}
