/** Blocks and chains step by step, and what the gas limit of the consensus parameters means for a block. */
module BlockTraces {
  import opened Bytes
  import opened Branches
  import opened GasMeters
  import opened Transactions
  import opened BlockExecution
  import opened Traces
  import opened Hiding
  import opened Options

  // ---------------------------------------------------------------------------
  // Blocks
  // ---------------------------------------------------------------------------

  /** The stores after pre-block and begin block, around each transaction with its trace, and at the end. */
  datatype BlockRun = BlockRun(pre: State, begun: State, at: seq<Moment>, traces: seq<Trace>, end: State)

  predicate Wrote(w: Option<Writes>, before: State, after: State) {
    w.Some? && after == Apply(before, w.value)
  }

  /** There is no limit, written as no parameters, 0 or -1, or it is positive. */
  predicate Usable(p: Params) {
    p.maxGas.Some? ==> p.maxGas.value >= -1
  }

  predicate Limited(p: Params) {
    p.maxGas.Some? && p.maxGas.value > 0
  }

  /** One transaction, with the parameters in the store that it starts from. */
  ghost predicate TxStep(h: Handlers, c: Ctx, raw: Key, stuck: bool, before: Moment, after: Moment, t: Trace) {
    forall z: int {:trigger Unfold(z)} :: Guard(z) ==> exists w: int {:trigger Fold(w)} ::
      && Fold(w)
      && IsTrace(h, c.(params := h.params(before.state)), before.state, before.gas, raw, stuck, t)
      && after == Moment(t.state, if t.end == NoGasLeft then before.gas else Charged(before.gas, t.cost))
  }

  /** Each transaction starts where the one before it has ended. */
  ghost predicate TxSteps(h: Handlers, c: Ctx, txs: seq<Key>, stuck: set<nat>, at: seq<Moment>, traces: seq<Trace>) {
    && |at| == |traces| + 1 && |traces| <= |txs|
    && forall k :: 0 <= k < |traces| ==> TxStep(h, c, txs[k], k in stuck, at[k], at[k + 1], traces[k])
  }

  /** The block `req` on the store `s`, where `last` is the store committed last. */
  ghost predicate IsBlock(h: Handlers, last: State, s: State, req: Request, stuck: set<nat>, b: BlockRun) {
    var c := OpeningCtx(h, last, s, req);
    && Usable(h.params(s)) && Wrote(h.preBlock(c, req.txs, s), s, b.pre)
    && IsRest(h, c.(params := h.params(b.pre)), req, stuck, b)
  }

  function OpeningCtx(h: Handlers, last: State, s: State, req: Request): Ctx {
    var header := Header(
      height := req.height, time := req.time, hash := req.hash, extra := req.extra, appHash := h.appHash(last));
    Ctx(mode := Finalize, header := header, params := h.params(s))
  }

  /** What comes after pre-block. */
  ghost predicate IsRest(h: Handlers, c: Ctx, req: Request, stuck: set<nat>, b: BlockRun) {
    && Usable(h.params(b.pre)) && Wrote(h.beginBlock(c, b.pre), b.pre, b.begun)
    && Usable(h.params(b.begun)) && IsDelivery(h, c, req, stuck, b)
    && Wrote(h.endBlock(c, b.at[|req.txs|].state), b.at[|req.txs|].state, b.end)
  }

  ghost predicate IsDelivery(h: Handlers, c: Ctx, req: Request, stuck: set<nat>, b: BlockRun) {
    && |b.traces| == |req.txs| && TxSteps(h, c, req.txs, stuck, b.at, b.traces)
    && b.at[0] == Moment(b.begun, FreshMeter(h.params(b.begun)))
  }

  function FreshMeter(p: Params): Meter {
    if Limited(p) then Basic(p.maxGas.value, 0) else Infinite(0)
  }

  /** The results reported for a block are those of its traces. */
  predicate Reports(results: seq<bool>, traces: seq<Trace>) {
    |results| == |traces| && forall k :: 0 <= k < |results| ==> (results[k] <==> traces[k].end == Succeeds)
  }

  /** The reference takes one step after the other. */
  lemma {:induction false} NextStep(h: Handlers, c: Ctx, s: State, g: Meter, txs: seq<Key>, stuck: set<nat>, k: nat,
                                    before: Moment, after: Moment, t: Trace)
    requires k < |txs| && c.mode == Finalize && TxStep(h, c, txs[k], k in stuck, before, after, t)
    requires var d := Deliver(h, c, s, g, txs, stuck, k); before == Moment(d.state, d.gas)
    ensures Deliver(h, c, s, g, txs, stuck, k + 1)
         == Delivered(after.state, after.gas, Deliver(h, c, s, g, txs, stuck, k).results + [t.end == Succeeds])
  {
    assert Unfold(0);
    TraceSettles(h, TxCtx(h, c, before.state), before.state, before.gas, txs[k], k in stuck, t);
  }

  lemma StepExists(h: Handlers, c: Ctx, raw: Key, stuck: bool, before: Moment) returns (after: Moment, t: Trace)
    requires c.mode == Finalize
    ensures TxStep(h, c, raw, stuck, before, after, t)
  {
    t := TxTraced(h, TxCtx(h, c, before.state), before.state, before.gas, raw, stuck);
    after := Moment(t.state, if t.end == NoGasLeft then before.gas else Charged(before.gas, t.cost));
    assert Unfold(0) && Fold(0);
  }

  /** The first transactions of a block, step by step. */
  lemma {:induction false} DeliverTraced(h: Handlers, c: Ctx, s: State, g: Meter, txs: seq<Key>, stuck: set<nat>,
                                         k: nat)
    returns (at: seq<Moment>, traces: seq<Trace>)
    requires k <= |txs| && c.mode == Finalize
    ensures |traces| == k && TxSteps(h, c, txs, stuck, at, traces) && at[0] == Moment(s, g)
  {
    if k == 0 {
      at, traces := [Moment(s, g)], [];
    } else {
      at, traces := DeliverTraced(h, c, s, g, txs, stuck, k - 1);
      var next, t := StepExists(h, c, txs[k - 1], k - 1 in stuck, at[k - 1]);
      at, traces := at + [next], traces + [t];
    }
  }

  /** Any steps lead to what the reference computes. */
  lemma {:induction false} StepsDeliver(h: Handlers, c: Ctx, txs: seq<Key>, stuck: set<nat>, at: seq<Moment>,
                                        traces: seq<Trace>, k: nat)
    requires c.mode == Finalize && TxSteps(h, c, txs, stuck, at, traces) && k <= |traces|
    ensures var d := Deliver(h, c, at[0].state, at[0].gas, txs, stuck, k);
            Moment(d.state, d.gas) == at[k] && Reports(d.results, traces[..k])
  {
    if k > 0 {
      StepsDeliver(h, c, txs, stuck, at, traces, k - 1);
      NextStep(h, c, at[0].state, at[0].gas, txs, stuck, k - 1, at[k - 1], at[k], traces[k - 1]);
    }
  }

  /** A block that succeeds went through pre-block, begin block, its transactions and end block, in this order. */
  lemma BlockTraced(h: Handlers, last: State, s: State, req: Request, stuck: set<nat>) returns (b: BlockRun)
    requires ExecuteBlock(h, last, s, req, stuck).Some?
    ensures IsBlock(h, last, s, req, stuck, b)
  {
    var c := OpeningCtx(h, last, s, req);
    b := RestTraced(h, c, Apply(s, h.preBlock(c, req.txs, s).value), req, stuck);
  }

  lemma RestTraced(h: Handlers, c: Ctx, s: State, req: Request, stuck: set<nat>) returns (b: BlockRun)
    requires c.mode == Finalize && ExecuteFromBegin(h, c, s, req, stuck).Some?
    ensures b.pre == s && IsRest(h, TxCtx(h, c, s), req, stuck, b)
  {
    var ctx := TxCtx(h, c, s);
    var begun := Apply(s, h.beginBlock(ctx, s).value);
    var at, traces := DeliverTraced(h, ctx, begun, FreshMeter(h.params(begun)), req.txs, stuck, |req.txs|);
    StepsDeliver(h, ctx, req.txs, stuck, at, traces, |req.txs|);
    var done := at[|req.txs|].state;
    b := BlockRun(s, begun, at, traces, Apply(done, h.endBlock(ctx, done).value));
  }

  /** Whatever goes through these steps is a block that succeeds, with the last store and the results of its traces. */
  lemma StepsExecute(h: Handlers, last: State, s: State, req: Request, stuck: set<nat>, b: BlockRun)
    requires IsBlock(h, last, s, req, stuck, b)
    ensures var e := ExecuteBlock(h, last, s, req, stuck);
            e.Some? && e.value.state == b.end && Reports(e.value.results, b.traces)
  {
    RestExecutes(h, OpeningCtx(h, last, s, req), req, stuck, b);
  }

  lemma RestExecutes(h: Handlers, c: Ctx, req: Request, stuck: set<nat>, b: BlockRun)
    requires c.mode == Finalize && IsRest(h, TxCtx(h, c, b.pre), req, stuck, b)
    ensures var e := ExecuteFromBegin(h, c, b.pre, req, stuck);
            e.Some? && e.value.state == b.end && Reports(e.value.results, b.traces)
  {
    StepsDeliver(h, TxCtx(h, c, b.pre), req.txs, stuck, b.at, b.traces, |b.traces|);
    assert b.traces[..|b.traces|] == b.traces;
  }

  /** A block succeeds exactly if it can go through these steps. */
  lemma BlockIff(h: Handlers, last: State, s: State, req: Request, stuck: set<nat>)
    ensures ExecuteBlock(h, last, s, req, stuck).Some? <==> exists b :: IsBlock(h, last, s, req, stuck, b)
  {
    if ExecuteBlock(h, last, s, req, stuck).Some? {
      var b := BlockTraced(h, last, s, req, stuck);
    }
    forall b | IsBlock(h, last, s, req, stuck, b) ensures ExecuteBlock(h, last, s, req, stuck).Some? {
      StepsExecute(h, last, s, req, stuck, b);
    }
  }

  // ---------------------------------------------------------------------------
  // Gas
  // ---------------------------------------------------------------------------

  ghost function Costs(traces: seq<Trace>): nat {
    if traces == [] then 0 else Costs(traces[..|traces| - 1]) + traces[|traces| - 1].cost
  }

  ghost function CostsOfSuccess(traces: seq<Trace>): nat {
    if traces == [] then 0
    else
      var t := traces[|traces| - 1];
      CostsOfSuccess(traces[..|traces| - 1]) + if t.end == Succeeds then t.cost else 0
  }

  /** A transaction is charged once if it is started, and it is started if there is gas. */
  lemma StepGas(h: Handlers, c: Ctx, raw: Key, stuck: bool, before: Moment, after: Moment, t: Trace)
    requires TxStep(h, c, raw, stuck, before, after, t)
    ensures t.end == NoGasLeft <==> before.gas.Basic? && before.gas.consumed >= before.gas.limit
    ensures t.end == NoGasLeft ==> after == before && t.cost == 0
    ensures t.end != NoGasLeft ==> after.gas == Charged(before.gas, t.cost)
    ensures (t.end == Succeeds ==> Pays(before.gas, t.cost)) && (t.end == TooExpensive ==> !Pays(before.gas, t.cost))
  {
    assert Unfold(0);
  }

  /** What the meter of a block with a limit shows before the k-th transaction. */
  lemma {:induction false} MeterShows(h: Handlers, c: Ctx, txs: seq<Key>, stuck: set<nat>, at: seq<Moment>,
                                      traces: seq<Trace>, limit: nat, k: nat)
    requires TxSteps(h, c, txs, stuck, at, traces) && at[0].gas == Basic(limit, 0) && limit <= MAX_UINT64
    requires k <= |traces|
    ensures at[k].gas == Basic(limit, Min(MAX_UINT64, Costs(traces[..k])))
    ensures CostsOfSuccess(traces[..k]) <= Costs(traces[..k]) && CostsOfSuccess(traces[..k]) <= limit
    ensures k > 0 && traces[k - 1].end == Succeeds ==> Costs(traces[..k]) <= limit
  {
    if k > 0 {
      MeterShows(h, c, txs, stuck, at, traces, limit, k - 1);
      assert traces[..k][..k - 1] == traces[..k - 1];
      StepGas(h, c, txs[k - 1], k - 1 in stuck, at[k - 1], at[k], traces[k - 1]);
    }
  }

  lemma {:induction false} MeterCounts(h: Handlers, c: Ctx, txs: seq<Key>, stuck: set<nat>, at: seq<Moment>,
                                       traces: seq<Trace>, k: nat)
    requires TxSteps(h, c, txs, stuck, at, traces) && at[0].gas == Infinite(0) && k <= |traces|
    ensures at[k].gas.Infinite? && (Costs(traces[..k]) <= MAX_UINT64 ==> at[k].gas.consumed == Costs(traces[..k]))
  {
    if k > 0 {
      MeterCounts(h, c, txs, stuck, at, traces, k - 1);
      assert traces[..k][..k - 1] == traces[..k - 1];
      StepGas(h, c, txs[k - 1], k - 1 in stuck, at[k - 1], at[k], traces[k - 1]);
    }
  }

  /**
   * With a positive limit in the parameters after begin block, the transactions that succeed cost at most the
   * limit in all, whatever is charged up to a successful one is within the limit, and exactly those that find the
   * limit reached are not started.
   */
  lemma LimitedBlock(h: Handlers, last: State, s: State, req: Request, stuck: set<nat>, b: BlockRun)
    requires IsBlock(h, last, s, req, stuck, b) && Limited(h.params(b.begun))
    ensures CostsOfSuccess(b.traces) <= h.params(b.begun).maxGas.value
    ensures forall k :: 0 <= k < |b.traces| ==> StaysWithin(b, h.params(b.begun).maxGas.value, k)
  {
    var c, limit := OpeningCtx(h, last, s, req).(params := h.params(b.pre)), h.params(b.begun).maxGas.value;
    assert b.traces[..|b.traces|] == b.traces;
    MeterShows(h, c, req.txs, stuck, b.at, b.traces, limit, |b.traces|);
    forall k | 0 <= k < |b.traces| ensures StaysWithin(b, limit, k) {
      MeterShows(h, c, req.txs, stuck, b.at, b.traces, limit, k);
      MeterShows(h, c, req.txs, stuck, b.at, b.traces, limit, k + 1);
      StepGas(h, c, req.txs[k], k in stuck, b.at[k], b.at[k + 1], b.traces[k]);
    }
  }

  ghost predicate StaysWithin(b: BlockRun, limit: nat, k: nat)
    requires k < |b.traces| && |b.at| == |b.traces| + 1
  {
    && (b.traces[k].end == Succeeds ==> Costs(b.traces[..k + 1]) <= limit)
    && (b.traces[k].end == NoGasLeft <==> Costs(b.traces[..k]) >= limit)
    && (b.traces[k].end == NoGasLeft ==> b.at[k + 1] == b.at[k])
  }

  /** Without a limit every transaction is started, and none fails for the gas of the block below 2^64. */
  lemma UnlimitedBlock(h: Handlers, last: State, s: State, req: Request, stuck: set<nat>, b: BlockRun)
    requires IsBlock(h, last, s, req, stuck, b)
    requires var p := h.params(b.begun); p.maxGas.None? || p.maxGas.value == 0 || p.maxGas.value == -1
    ensures forall k :: 0 <= k < |b.traces| ==>
              && b.traces[k].end != NoGasLeft
              && (Costs(b.traces[..k + 1]) <= MAX_UINT64 ==> b.traces[k].end != TooExpensive)
  {
    var c := OpeningCtx(h, last, s, req).(params := h.params(b.pre));
    forall k | 0 <= k < |b.traces|
      ensures b.traces[k].end != NoGasLeft
      ensures Costs(b.traces[..k + 1]) <= MAX_UINT64 ==> b.traces[k].end != TooExpensive
    {
      MeterCounts(h, c, req.txs, stuck, b.at, b.traces, k);
      assert b.traces[..k + 1][..k] == b.traces[..k];
      StepGas(h, c, req.txs[k], k in stuck, b.at[k], b.at[k + 1], b.traces[k]);
    }
  }

  /** A limit below -1 before the block, after pre-block or after begin block makes the block fail. */
  lemma UnusableLimit(h: Handlers, last: State, s: State, req: Request, stuck: set<nat>, pre: State, begun: State)
    requires var c := OpeningCtx(h, last, s, req);
             || !Usable(h.params(s))
             || (Wrote(h.preBlock(c, req.txs, s), s, pre) && !Usable(h.params(pre)))
             || (&& Wrote(h.preBlock(c, req.txs, s), s, pre)
                 && Wrote(h.beginBlock(c.(params := h.params(pre)), pre), pre, begun) && !Usable(h.params(begun)))
    ensures ExecuteBlock(h, last, s, req, stuck).None?
  {
    if ExecuteBlock(h, last, s, req, stuck).Some? {
      var b := BlockTraced(h, last, s, req, stuck);
    }
  }

  // ---------------------------------------------------------------------------
  // Chains
  // ---------------------------------------------------------------------------

  /** The stores after storing the parameters, after the genesis and after each block. */
  datatype ChainRun = ChainRun(stored: State, genesis: State, stores: seq<State>, blocks: seq<BlockRun>)

  ghost predicate IsGenesis(h: Handlers, g: Genesis, stored: State, genesis: State) {
    var header := Header(
      height := if g.initialHeight > 1 then g.initialHeight else 0, time := g.time, hash := [], extra := [],
      appHash := []);
    && (if g.params.Some? then Wrote(h.storeParams(g.params.value), map[], stored) else stored == map[])
    && Wrote(h.initChain(header, g.appState, stored), stored, genesis)
  }

  /** The chain starts from nothing; the genesis takes effect together with the first block. */
  ghost predicate IsChainRun(h: Handlers, g: Genesis, reqs: seq<Request>, r: ChainRun) {
    && IsGenesis(h, g, r.stored, r.genesis)
    && |r.stores| == |r.blocks| + 1 == |reqs| + 1 && r.stores[0] == map[]
    && forall k :: 0 <= k < |reqs| ==>
         BlockStep(h, r.stores[k], if k == 0 then r.genesis else r.stores[k], reqs[k], r.blocks[k], r.stores[k + 1])
  }

  /** One block on the store `s`, which is the one committed last or, before the first block, the genesis. */
  ghost predicate BlockStep(h: Handlers, last: State, s: State, req: Request, b: BlockRun, next: State) {
    forall z: int {:trigger Unfold(z)} :: Guard(z) ==> exists w: int {:trigger Fold(w)} ::
      Fold(w) && IsBlock(h, last, s, req, {}, b) && next == b.end
  }

  lemma BlockStepExists(h: Handlers, last: State, s: State, req: Request) returns (b: BlockRun, next: State)
    requires ExecuteBlock(h, last, s, req, {}).Some?
    ensures BlockStep(h, last, s, req, b, next)
  {
    b := BlockTraced(h, last, s, req, {});
    next := b.end;
    assert Unfold(0) && Fold(0);
  }

  lemma BlockStepExecutes(h: Handlers, last: State, s: State, req: Request, b: BlockRun, next: State)
    requires BlockStep(h, last, s, req, b, next)
    ensures ExecuteBlock(h, last, s, req, {}).Some? && ExecuteBlock(h, last, s, req, {}).value.state == next
  {
    assert Unfold(0);
    StepsExecute(h, last, s, req, {}, b);
  }

  lemma GenesisTraced(h: Handlers, g: Genesis) returns (stored: State, genesis: State)
    requires GenesisWrites(h, g).Some?
    ensures IsGenesis(h, g, stored, genesis) && genesis == Apply(map[], GenesisWrites(h, g).value)
  {
    ApplyNothing(map[]);
    var w := if g.params.None? then map[] else h.storeParams(g.params.value).value;
    stored := Apply(map[], w);
    var header := Header(if g.initialHeight > 1 then g.initialHeight else 0, g.time, [], [], []);
    var w' := h.initChain(header, g.appState, stored).value;
    ApplyTwice(map[], w, w');
    genesis := Apply(stored, w');
  }

  lemma GenesisSteps(h: Handlers, g: Genesis, stored: State, genesis: State)
    requires IsGenesis(h, g, stored, genesis)
    ensures GenesisWrites(h, g).Some? && genesis == Apply(map[], GenesisWrites(h, g).value)
  {
    ApplyNothing(map[]);
    var w := if g.params.None? then map[] else h.storeParams(g.params.value).value;
    var header := Header(if g.initialHeight > 1 then g.initialHeight else 0, g.time, [], [], []);
    ApplyTwice(map[], w, h.initChain(header, g.appState, stored).value);
  }

  /** Any such stores are those of the chain, which therefore exists. */
  lemma {:induction false} StepsChain(h: Handlers, g: Genesis, reqs: seq<Request>, r: ChainRun, k: nat)
    requires IsChainRun(h, g, reqs, r) && k <= |reqs|
    ensures Chain(h, g, reqs[..k]) == Some(r.stores[k])
  {
    if k > 0 {
      StepsChain(h, g, reqs, r, k - 1);
      assert reqs[..k][..k - 1] == reqs[..k - 1];
      GenesisSteps(h, g, r.stored, r.genesis);
      var s := if k == 1 then r.genesis else r.stores[k - 1];
      BlockStepExecutes(h, r.stores[k - 1], s, reqs[k - 1], r.blocks[k - 1], r.stores[k]);
    }
  }

  lemma ChainRunNext(h: Handlers, g: Genesis, reqs: seq<Request>, r: ChainRun, req: Request, b: BlockRun, next: State)
    requires IsChainRun(h, g, reqs, r)
    requires var last := r.stores[|reqs|]; BlockStep(h, last, if reqs == [] then r.genesis else last, req, b, next)
    ensures IsChainRun(h, g, reqs + [req], r.(stores := r.stores + [next], blocks := r.blocks + [b]))
  {
  }

  /** One more block of the chain is one more step. */
  lemma ChainStep(h: Handlers, g: Genesis, reqs: seq<Request>, r: ChainRun, req: Request) returns (r': ChainRun)
    requires IsChainRun(h, g, reqs, r) && Chain(h, g, reqs + [req]).Some?
    ensures IsChainRun(h, g, reqs + [req], r')
  {
    StepsChain(h, g, reqs, r, |reqs|);
    assert reqs[..|reqs|] == reqs;
    var last := r.stores[|reqs|];
    ChainNext(h, g, reqs, last, req);
    GenesisSteps(h, g, r.stored, r.genesis);
    var b, next := BlockStepExists(h, last, if reqs == [] then r.genesis else last, req);
    ChainRunNext(h, g, reqs, r, req, b, next);
    r' := r.(stores := r.stores + [next], blocks := r.blocks + [b]);
  }

  lemma LastApart<T>(xs: seq<T>)
    requires xs != []
    ensures xs == xs[..|xs| - 1] + [xs[|xs| - 1]]
  {
  }

  lemma {:induction false} ChainSteps(h: Handlers, g: Genesis, reqs: seq<Request>) returns (r: ChainRun)
    requires Chain(h, g, reqs).Some? && GenesisWrites(h, g).Some?
    ensures IsChainRun(h, g, reqs, r)
  {
    if reqs == [] {
      var stored, genesis := GenesisTraced(h, g);
      r := ChainRun(stored, genesis, [map[]], []);
    } else {
      var n := |reqs| - 1;
      var r0 := ChainSteps(h, g, reqs[..n]);
      LastApart(reqs);
      r := ChainStep(h, g, reqs[..n], r0, reqs[n]);
    }
  }

  /** The committed store of a chain is the last of such stores. */
  lemma ChainTraced(h: Handlers, g: Genesis, reqs: seq<Request>) returns (r: ChainRun)
    requires reqs != [] && Chain(h, g, reqs).Some?
    ensures IsChainRun(h, g, reqs, r) && Chain(h, g, reqs) == Some(r.stores[|reqs|])
  {
    ChainHasGenesis(h, g, reqs);
    r := ChainSteps(h, g, reqs);
    StepsChain(h, g, reqs, r, |reqs|);
    assert reqs[..|reqs|] == reqs;
  }
}
