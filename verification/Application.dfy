/** The ABCI methods and the store branches behind them (`baseapp/abci.go`, `baseapp/baseapp.go`). */
module Application {
  import opened Bytes
  import opened Branches
  import opened GasMeters
  import opened Transactions
  import opened BlockExecution
  import opened Options

  /** The root store: what is committed, what has been written since, and the version last committed. */
  datatype Cms = Cms(committed: State, working: State, last: int, initialVersion: int)

  /** The state of a mode: its context, and its branch of (a branch with writes `parent` of) the root store. */
  datatype Volatile = Volatile(ctx: Ctx, parent: Writes, writes: Writes)

  datatype Why = Halted | WrongHeight | BadParams | HandlerFailed | Cancelled | NoState

  datatype Reply = Reply(results: seq<bool>) | NoReply(why: Why)

  /** An optimistic run; it is carried out when it is waited for. */
  datatype OeRun = Idle | Running | Ended(reply: Reply)

  /** The optimistic execution object (`baseapp/oe`); `run` is `Idle` until the first `Execute`. */
  datatype Oe = Oe(initialized: bool, request: Option<Request>, run: OeRun)

  /** What a proposal handler does: it writes to its branch, tries transactions and answers. */
  datatype Script = Script(acts: seq<Act>, answer: Answer)

  datatype Act = Put(writes: Writes) | Try(raw: Key)

  datatype Answer = Txs(txs: seq<Key>) | Accept | Reject | Fails | Panics

  datatype Config = Config(chainId: Key, haltHeight: nat, haltTime: nat, oeEnabled: bool)

  const TWO_64: nat := 0x1_0000_0000_0000_0000

  /** `checkHalt`: the node is configured to stop before this block. */
  predicate Halts(config: Config, req: Request) {
    || (config.haltHeight > 0 && req.height % TWO_64 >= config.haltHeight)
    || (config.haltTime > 0 && req.time >= config.haltTime)
  }

  class BaseApp {
    const h: Handlers
    const config: Config
    var cms: Cms
    var initialHeight: int
    var check: Volatile
    var prepare: Option<Volatile>
    var process: Option<Volatile>
    var finalize: Option<Writes>
    var lastHeader: Header
    var oe: Oe

    /** What the finalize branch holds before a block is executed: the genesis, until it is committed. */
    ghost var pristine: Writes

    /** The latest optimistic run has been carried out on the current finalize branch. */
    ghost var ranHere: bool

    /** Loading the store of a node that may have committed blocks before. */
    constructor (h: Handlers, config: Config, cms: Cms)
      requires cms.working == cms.committed && cms.initialVersion == 0
      ensures this.h == h && this.config == config && this.cms == cms && initialHeight == 0
      ensures finalize.None? && oe == Oe(false, None, Idle) && pristine == map[] && Valid()
    {
      this.h, this.config, this.cms, initialHeight := h, config, cms, 0;
      check := Volatile(Ctx(Check, Header(0, 0, [], [], []), h.params(map[])), map[], map[]);
      prepare, process, finalize, oe := None, None, None, Oe(false, None, Idle);
      lastHeader := Header(0, 0, [], [], []);
      pristine, ranHere := map[], false;
    }

    /** The finalize branch is as it was set up. */
    ghost predicate Clean()
      reads this
    {
      finalize == Some(pristine) || (finalize.None? && pristine == map[])
    }

    /** What every method keeps about the finalize branch and the optimistic run. */
    ghost predicate Valid()
      reads this
    {
      && (oe.run.Idle? ==> !oe.initialized)
      && (oe.run.Running? ==> oe.initialized && finalize == Some(pristine))
      && (oe.initialized ==> oe.request.Some?)
      && (!oe.run.Idle? ==> config.oeEnabled && pristine == map[])
      && (ranHere ==> oe.run.Ended? && oe.initialized && Answers(oe.run.reply, oe.request.value))
    }

    /** What the reply of a run on the current finalize branch, with no writes before, says about the block. */
    ghost predicate Answers(reply: Reply, req: Request)
      reads this`cms, this`initialHeight, this`finalize
    {
      match reply
      case Reply(results) => finalize.Some? && Ran(req, finalize.value, results)
      case NoReply(why) =>
        why != Cancelled ==> !Takes(req) || ExecuteBlock(h, cms.committed, cms.working, req, {}).None?
    }

    /** The writes and results are those of the block on the root store as it is. */
    ghost predicate Ran(req: Request, w: Writes, results: seq<bool>)
      reads this`cms, this`initialHeight
    {
      Takes(req) && ExecuteBlock(h, cms.committed, cms.working, req, {}) == Some(Block(Apply(cms.working, w), results))
    }

    function ExpectedHeight(): int
      reads this`cms, this`initialHeight
    {
      if cms.last == 0 && initialHeight > 1 then initialHeight else cms.last + 1
    }

    predicate Takes(req: Request)
      reads this`cms, this`initialHeight
    {
      !Halts(config, req) && req.height >= 1 && req.height == ExpectedHeight()
    }

    /** A branch of the root store for some mode, without writes. */
    method SetState(mode: Mode, header: Header, parent: Writes) returns (v: Volatile)
      ensures v.parent == parent && v.writes == map[] && v.ctx.mode == mode && v.ctx.header == header
      ensures v.ctx.params == h.params(Apply(cms.working, parent))
    {
      v := Volatile(Ctx(mode, header, h.params(Apply(cms.working, parent))), parent, map[]);
    }

    /** `runTx` in a mode other than finalize: at most the writes of the ante handler are kept. */
    method RunTx(v: Volatile, raw: Key, stuck: bool) returns (v': Volatile, ok: bool)
      requires v.ctx.mode != Finalize
      ensures var s := Apply(Apply(cms.working, v.parent), v.writes);
              && v' == v.(writes := v.writes + AnteWrites(h, TxCtx(h, v.ctx, s), s, raw))
              && ok == Passes(h, TxCtx(h, v.ctx, s), s, raw, stuck)
    {
      var run := new TxRun(h, v.ctx, Apply(cms.working, v.parent), v.writes, Infinite(0));
      ok := run.Run(raw, stuck);
      v' := v.(writes := run.ms);
    }

    // -------------------------------------------------------------------------
    // Calls that only touch their own branch
    // -------------------------------------------------------------------------

    /** `stuck` says that the mempool refuses the transaction. */
    method CheckTx(raw: Key, recheck: bool, stuck: bool) returns (ok: bool)
      modifies this`check
      ensures var c := old(check).ctx.(mode := if recheck then ReCheck else Check);
              var s := Apply(Apply(cms.working, old(check).parent), old(check).writes);
              && check == old(check).(writes := old(check).writes + AnteWrites(h, TxCtx(h, c, s), s, raw))
              && ok == Passes(h, TxCtx(h, c, s), s, raw, stuck)
    {
      var v, passed := RunTx(check.(ctx := check.ctx.(mode := if recheck then ReCheck else Check)), raw, stuck);
      check, ok := check.(writes := v.writes), passed;
    }

    /** Runs on a branch of the check state that is thrown away. */
    method Simulate(raw: Key) returns (ok: bool)
      ensures var s := Apply(Apply(cms.working, check.parent), check.writes);
              ok == Passes(h, TxCtx(h, check.ctx.(mode := Mode.Simulate), s), s, raw, false)
    {
      var _, passed := RunTx(check.(ctx := check.ctx.(mode := Mode.Simulate)), raw, false);
      ok := passed;
    }

    /** The writes that the first `n` acts of a proposal handler leave on its branch. */
    ghost function ScriptWrites(v: Volatile, acts: seq<Act>, n: nat): Writes
      requires n <= |acts|
      reads this`cms
    {
      if n == 0 then v.writes
      else
        var w := ScriptWrites(v, acts, n - 1);
        match acts[n - 1]
        case Put(writes) => w + writes
        case Try(raw) =>
          var s := Apply(Apply(cms.working, v.parent), w);
          w + AnteWrites(h, TxCtx(h, v.ctx, s), s, raw)
    }

    /** Each act of a proposal handler starts from the store that the one before it has left. */
    ghost predicate Acts(c: Ctx, acts: seq<Act>, stores: seq<State>)
    {
      && |stores| == |acts| + 1
      && forall i :: 0 <= i < |acts| ==> ActsAt(c, acts[i], stores[i], stores[i + 1])
    }

    ghost predicate ActsAt(c: Ctx, act: Act, before: State, after: State) {
      match act
      case Put(writes) => after == Apply(before, writes)
      case Try(raw) => after == Apply(before, AnteWrites(h, TxCtx(h, c, before), before, raw))
    }

    /** What is read through a branch of the root store. */
    function StoreOf(v: Volatile): State
      reads this`cms
    {
      Apply(Apply(cms.working, v.parent), v.writes)
    }

    /** The stores around the acts of a proposal handler. */
    lemma {:induction false} ScriptActs(v: Volatile, acts: seq<Act>, n: nat) returns (stores: seq<State>)
      requires n <= |acts|
      ensures Acts(v.ctx, acts[..n], stores) && stores[0] == StoreOf(v)
      ensures stores[n] == StoreOf(v.(writes := ScriptWrites(v, acts, n)))
    {
      if n == 0 {
        stores := [StoreOf(v)];
      } else {
        stores := ScriptActs(v, acts, n - 1);
        var w := ScriptWrites(v, acts, n - 1);
        var s := StoreOf(v.(writes := w));
        var more := match acts[n - 1]
          case Put(writes) => writes
          case Try(raw) => AnteWrites(h, TxCtx(h, v.ctx, s), s, raw);
        ApplyTwice(Apply(cms.working, v.parent), w, more);
        stores := stores + [Apply(s, more)];
      }
    }

    /** What a proposal handler does to its branch. */
    method RunScript(v: Volatile, script: Script) returns (v': Volatile, ghost stores: seq<State>)
      requires v.ctx.mode != Finalize
      ensures v' == v.(writes := ScriptWrites(v, script.acts, |script.acts|))
      ensures Acts(v.ctx, script.acts, stores) && stores[0] == StoreOf(v) && stores[|script.acts|] == StoreOf(v')
    {
      stores := ScriptActs(v, script.acts, |script.acts|);
      assert script.acts[..|script.acts|] == script.acts;
      v' := v;
      var i := 0;
      while i < |script.acts|
        invariant 0 <= i <= |script.acts| && v' == v.(writes := ScriptWrites(v, script.acts, i))
      {
        match script.acts[i] {
          case Put(writes) => v' := v'.(writes := v'.writes + writes);
          case Try(raw) =>
            var next, _ := RunTx(v', raw, false);
            v' := next;
        }
        i := i + 1;
      }
    }

    /** The store a proposal is looked at on: before the first block, with the genesis in it. */
    method ProposalState(mode: Mode, header: Header) returns (v: Option<Volatile>)
      requires mode != Finalize
      ensures v.None? <==> header.height == initialHeight && finalize.None?
      ensures v.Some? ==> v.value.ctx.mode == mode && v.value.writes == map[]
      ensures v.Some? ==> v.value.ctx.params == h.params(Apply(cms.working, v.value.parent))
      ensures v.Some? ==> v.value.parent == if header.height == initialHeight then finalize.value else map[]
    {
      if header.height == initialHeight {
        if finalize.None? {
          return None;
        }
        var branch := SetState(mode, header.(height := 0), finalize.value);
        return Some(branch);
      }
      var branch := SetState(mode, header, map[]);
      return Some(branch);
    }

    /** A handler that fails or panics makes the node propose what the consensus engine sent. */
    method PrepareProposal(req: Request, script: Script, cancel: Option<nat>) returns (txs: Option<seq<Key>>)
      requires Valid() && (Clean() || ranHere)
      modifies this`prepare, this`finalize, this`lastHeader, this`oe, this`ranHere
      ensures Valid() && (Clean() || ranHere) && !oe.run.Running?
      ensures old(!oe.run.Running?) ==> finalize == old(finalize) && oe == old(oe) && ranHere == old(ranHere)
      ensures oe.initialized == old(oe).initialized && oe.request == old(oe).request
      ensures old(oe).run.Running? && !Cuts(cancel, oe.request.value) ==> Intact()
      ensures txs.Some? ==>
                && prepare.Some?
                && prepare.value.parent == (if req.height == initialHeight then Held(finalize) else map[])
                && prepare.value.writes
                   == ScriptWrites(prepare.value.(writes := map[]), script.acts, |script.acts|)
      ensures txs.Some? ==> req.height >= 1 && txs.value == if script.answer.Txs? then script.answer.txs else req.txs
    {
      Abort(cancel);
      if req.height < 1 {
        return None;
      }
      var header := BlockHeader(h, cms.committed, req);
      var branch := ProposalState(Prepare, header);
      if branch.None? || BlockMeter(branch.value.ctx.params).None? {
        return None;
      }
      var after, _ := RunScript(branch.value, script);
      prepare := Some(after);
      return Some(if script.answer.Txs? then script.answer.txs else req.txs);
    }

    /** After the first block the finalize branch is set up again; an accepted proposal may be executed ahead. */
    method ProcessProposal(req: Request, script: Script, cancel: Option<nat>) returns (accepted: bool)
      requires Valid() && (Clean() || ranHere)
      modifies this`process, this`finalize, this`lastHeader, this`oe, this`ranHere, this`pristine
      ensures Valid() && (Clean() || ranHere)
      ensures accepted <==>
                && req.height >= 1 && script.answer == Accept && !(req.height == initialHeight && finalize.None?)
                && var held := if req.height == initialHeight then finalize.value else map[];
                   BlockMeter(h.params(Apply(cms.working, held))).Some?
      ensures accepted && config.oeEnabled && req.height > initialHeight ==> oe == Oe(true, Some(req), Running)
      ensures !(accepted && config.oeEnabled && req.height > initialHeight) ==>
                oe.initialized == old(oe).initialized && oe.request == old(oe).request
                && (req.height >= 1 && req.height > initialHeight ==> !oe.run.Running?)
      ensures req.height >= 1 && req.height > initialHeight ==> finalize == Some(map[]) && pristine == map[] && !ranHere
      ensures req.height < 1 || req.height <= initialHeight ==>
                finalize == old(finalize) && oe == old(oe) && ranHere == old(ranHere) && pristine == old(pristine)
    {
      if req.height < 1 {
        return false;
      }
      if req.height > initialHeight {
        Renew(cancel);
      }
      accepted := Judge(req, script);
      if accepted && config.oeEnabled && req.height > initialHeight {
        Execute(req);
      }
    }

    /** Stops what is being executed ahead and sets up a new finalize branch. */
    method Renew(cancel: Option<nat>)
      requires Valid() && (Clean() || ranHere)
      modifies this`finalize, this`lastHeader, this`oe, this`ranHere, this`pristine
      ensures Valid() && !oe.run.Running? && finalize == Some(map[]) && pristine == map[] && !ranHere
      ensures oe.initialized == old(oe).initialized && oe.request == old(oe).request
    {
      Abort(cancel);
      finalize, pristine, ranHere := Some(map[]), map[], false;
    }

    /** Lets the handler look at a proposal; whatever goes wrong is a rejection. */
    method Judge(req: Request, script: Script) returns (accepted: bool)
      modifies this`process
      ensures accepted ==>
                && process.Some?
                && process.value.parent == (if req.height == initialHeight then Held(finalize) else map[])
                && process.value.writes
                   == ScriptWrites(process.value.(writes := map[]), script.acts, |script.acts|)
      ensures accepted <==>
                && script.answer == Accept && !(req.height == initialHeight && finalize.None?)
                && var held := if req.height == initialHeight then finalize.value else map[];
                   BlockMeter(h.params(Apply(cms.working, held))).Some?
    {
      var branch := ProposalState(Mode.Process, BlockHeader(h, cms.committed, req));
      if branch.None? || BlockMeter(branch.value.ctx.params).None? {
        return false;
      }
      var after, _ := RunScript(branch.value, script);
      process := Some(after);
      return script.answer == Accept;
    }

    /** Extending a vote and verifying an extension read a branch that is thrown away. */
    method VoteExtensionState(height: int) returns (s: Option<State>)
      ensures s.None? <==> height == initialHeight && finalize.None?
      ensures s.Some? ==>
                s.value == if height == initialHeight then Apply(cms.working, finalize.value) else cms.working
    {
      if height == initialHeight {
        return if finalize.None? then None else Some(Apply(cms.working, finalize.value));
      }
      return Some(cms.working);
    }

    // -------------------------------------------------------------------------
    // Executing blocks
    // -------------------------------------------------------------------------

    /**
     * Executes a block on the finalize branch. The `k`-th of the points after begin block, after
     * each transaction and after end block is where it notices a cancellation, if `cancel` is
     * `Some(k)`.
     */
    method InternalFinalizeBlock(req: Request, cancel: Option<nat>, stuck: set<nat>) returns (r: Reply)
      modifies this`finalize, this`lastHeader
      ensures r.Reply? ==> finalize.Some? && Takes(req)
      ensures r.Reply? ==>
                ExecuteBlock(h, cms.committed, Apply(cms.working, Held(old(finalize))), req, stuck)
                == Some(Block(Apply(cms.working, finalize.value), r.results))
      ensures r.NoReply? && r.why != Cancelled ==>
                !Takes(req) || ExecuteBlock(h, cms.committed, Apply(cms.working, Held(old(finalize))), req, stuck).None?
      ensures r == NoReply(Cancelled) ==> Cuts(cancel, req)
      ensures r == NoReply(Halted) <==>
                || (config.haltHeight > 0 && req.height % TWO_64 >= config.haltHeight)
                || (config.haltTime > 0 && req.time >= config.haltTime)
    {
      if Halts(config, req) {
        return NoReply(Halted);
      }
      if req.height < 1 || req.height != ExpectedHeight() {
        return NoReply(WrongHeight);
      }
      if finalize.None? {
        finalize := Some(map[]);
      }
      var s := Apply(cms.working, finalize.value);
      lastHeader := BlockHeader(h, cms.committed, req);
      var c := Ctx(Finalize, lastHeader, h.params(s));
      if BlockMeter(c.params).None? {
        return NoReply(BadParams);
      }
      var pre := h.preBlock(c, req.txs, s);
      if pre.None? {
        return NoReply(HandlerFailed);
      }
      ApplyTwice(cms.working, finalize.value, pre.value);
      finalize := Some(finalize.value + pre.value);
      r := FromBeginBlock(c, req, cancel, stuck);
    }

    method FromBeginBlock(c: Ctx, req: Request, cancel: Option<nat>, stuck: set<nat>) returns (r: Reply)
      requires finalize.Some? && c.mode == Finalize
      modifies this`finalize
      ensures finalize.Some?
      ensures r.Reply? ==>
                ExecuteFromBegin(h, c, Apply(cms.working, old(finalize).value), req, stuck)
                == Some(Block(Apply(cms.working, finalize.value), r.results))
      ensures r.NoReply? && r.why != Cancelled ==>
                ExecuteFromBegin(h, c, Apply(cms.working, old(finalize).value), req, stuck).None?
      ensures r == NoReply(Cancelled) ==> Cuts(cancel, req)
      ensures r != NoReply(Halted)
    {
      var s := Apply(cms.working, finalize.value);
      var ctx := TxCtx(h, c, s);
      if BlockMeter(ctx.params).None? {
        return NoReply(BadParams);
      }
      var begin := h.beginBlock(ctx, s);
      if begin.None? {
        return NoReply(HandlerFailed);
      }
      ApplyTwice(cms.working, finalize.value, begin.value);
      finalize := Some(finalize.value + begin.value);
      if cancel == Some(0) {
        return NoReply(Cancelled);
      }
      var meter := BlockMeter(h.params(Apply(cms.working, finalize.value)));
      if meter.None? {
        return NoReply(BadParams);
      }
      r := DeliverTxs(ctx, meter.value, req, cancel, stuck);
      if r.NoReply? {
        return;
      }
      var end := h.endBlock(ctx, Apply(cms.working, finalize.value));
      if end.None? {
        return NoReply(HandlerFailed);
      }
      ApplyTwice(cms.working, finalize.value, end.value);
      finalize := Some(finalize.value + end.value);
      if cancel == Some(|req.txs| + 1) {
        return NoReply(Cancelled);
      }
    }

    /** Runs the transactions of a block in order, each on the branch that the ones before have left. */
    method DeliverTxs(c: Ctx, g: Meter, req: Request, cancel: Option<nat>, stuck: set<nat>) returns (r: Reply)
      requires finalize.Some? && c.mode == Finalize
      modifies this`finalize
      ensures finalize.Some? && (r.NoReply? ==> r.why == Cancelled && Cuts(cancel, req))
      ensures r.Reply? ==>
                var d := Deliver(h, c, Apply(cms.working, old(finalize).value), g, req.txs, stuck, |req.txs|);
                d.state == Apply(cms.working, finalize.value) && d.results == r.results
    {
      ghost var s := Apply(cms.working, finalize.value);
      var results := [];
      var meter := g;
      var i := 0;
      while i < |req.txs|
        invariant 0 <= i <= |req.txs| && finalize.Some?
        invariant Deliver(h, c, s, g, req.txs, stuck, i)
                  == Delivered(Apply(cms.working, finalize.value), meter, results)
      {
        var ok;
        meter, ok := DeliverTx(c, meter, req.txs[i], i in stuck);
        results := results + [ok];
        i := i + 1;
        if cancel == Some(i) {
          return NoReply(Cancelled);
        }
      }
      return Reply(results);
    }

    /** Runs one transaction on the finalize branch. */
    method DeliverTx(c: Ctx, g: Meter, raw: Key, stuck: bool) returns (g': Meter, ok: bool)
      requires finalize.Some? && c.mode == Finalize
      modifies this`finalize
      ensures finalize.Some?
      ensures var s := Apply(cms.working, old(finalize).value);
              var e := Settle(h, TxCtx(h, c, s), s, g, raw, stuck);
              Apply(cms.working, finalize.value) == Apply(s, e.writes) && g' == e.blockGas && ok == e.ok
    {
      var run := new TxRun(h, c, cms.working, finalize.value, g);
      ghost var e := Settle(h, run.ctx, Apply(cms.working, finalize.value), g, raw, stuck);
      ok := run.Run(raw, stuck);
      ApplyTwice(cms.working, finalize.value, e.writes);
      finalize, g' := Some(run.ms), run.blockGas;
    }

    // -------------------------------------------------------------------------
    // Optimistic execution
    // -------------------------------------------------------------------------

    /** Starts executing a proposal on the finalize branch. */
    method Execute(req: Request)
      requires Valid() && config.oeEnabled && finalize == Some(pristine) && pristine == map[]
      modifies this`oe, this`ranHere
      ensures Valid() && !ranHere && oe == Oe(true, Some(req), Running)
    {
      oe, ranHere := Oe(true, Some(req), Running), false;
    }

    /** Waits for the run, which may have been told to stop at some point. */
    method WaitResult(cancel: Option<nat>)
      requires Valid() && !oe.run.Idle?
      modifies this`finalize, this`lastHeader, this`oe, this`ranHere
      ensures Valid() && oe.run.Ended? && oe.initialized == old(oe).initialized && oe.request == old(oe).request
      ensures old(oe).run.Running? ==> ranHere
      ensures old(oe).run.Running? && !Cuts(cancel, oe.request.value) ==> Intact()
      ensures !old(oe).run.Running? ==> finalize == old(finalize) && oe == old(oe) && ranHere == old(ranHere)
    {
      if oe.run.Running? {
        ApplyNothing(cms.working);
        var reply := InternalFinalizeBlock(oe.request.value, cancel, {});
        oe, ranHere := oe.(run := Ended(reply)), true;
      }
    }

    /** Stops and waits for the run, if there ever was one. It stays initialized. */
    method Abort(cancel: Option<nat>)
      requires Valid() && (Clean() || ranHere)
      modifies this`finalize, this`lastHeader, this`oe, this`ranHere
      ensures Valid() && !oe.run.Running? && (Clean() || ranHere)
      ensures oe.initialized == old(oe).initialized && oe.request == old(oe).request
      ensures old(oe).run.Running? && !Cuts(cancel, oe.request.value) ==> Intact()
      ensures !old(oe).run.Running? ==> oe == old(oe) && finalize == old(finalize) && ranHere == old(ranHere)
    {
      if !oe.run.Idle? {
        WaitResult(cancel);
      }
    }

    // -------------------------------------------------------------------------
    // FinalizeBlock
    // -------------------------------------------------------------------------

    /** What the block does on a node without optimistic execution. */
    ghost function Plain(req: Request): Option<Block>
      reads this`cms, this`initialHeight, this`pristine
    {
      if Takes(req) then ExecuteBlock(h, cms.committed, Apply(cms.working, pristine), req, {}) else None
    }

    /** The result of an optimistic run will be taken for this block. */
    predicate Matches(req: Request)
      requires oe.initialized ==> oe.request.Some?
      reads this`oe
    {
      oe.initialized && oe.request.value.hash == req.hash
    }

    /** The run is still going on, or it came to its own end on the branch that is going to be written. */
    ghost predicate Intact()
      reads this`oe, this`ranHere
    {
      oe.run.Running? || (oe.run.Ended? && oe.run.reply != NoReply(Cancelled) && ranHere)
    }

    /** Writes the finalize branch to the root store, which empties it. */
    method WorkingHash()
      requires finalize.Some?
      modifies this`cms, this`finalize, this`ranHere
      ensures cms == old(cms).(working := Apply(old(cms).working, old(finalize).value))
      ensures finalize == Some(map[]) && !ranHere
    {
      cms := cms.(working := Apply(cms.working, finalize.value));
      finalize, ranHere := Some(map[]), false;
    }

    /**
     * Equal hashes stand for equal requests. The block has the effect that it has without
     * optimistic execution unless the optimistic run of this very block was disturbed; then
     * nothing of the block reaches the root store. `abortAnyway` is the abort rate for tests.
     */
    method FinalizeBlock(req: Request, abortAnyway: bool, cancel: Option<nat>) returns (r: Reply)
      requires Valid() && (Clean() || ranHere)
      requires Matches(req) ==> oe.request.value == req
      modifies this`cms, this`finalize, this`lastHeader, this`oe, this`ranHere
      ensures Valid() && !ranHere && !oe.run.Running? && (r.Reply? ==> finalize.Some?)
      ensures old(Matches(req) && !abortAnyway ==> Intact()) ==>
                && (r.Reply? <==> old(Plain(req)).Some?)
                && (r.Reply? ==> old(Plain(req)).value == Block(cms.working, r.results))
                && (r.NoReply? ==> cms == old(cms))
      ensures old(Matches(req) && !abortAnyway && !Intact()) ==> cms == old(cms)
      ensures cms == old(cms).(working := cms.working)
      ensures oe.initialized <==> old(Matches(req)) && !abortAnyway
      ensures oe.initialized ==> oe.request == old(oe).request
    {
      if oe.initialized {
        var aborted := oe.request.value.hash != req.hash || abortAnyway;
        if !aborted {
          r := TakeRun();
          return;
        }
        DropRun(cancel);
      }
      r := InternalFinalizeBlock(req, None, {});
      if r.Reply? {
        WorkingHash();
      }
    }

    /** Answers a block with what its optimistic run says. */
    method TakeRun() returns (r: Reply)
      requires Valid() && (Clean() || ranHere) && oe.initialized
      modifies this`cms, this`finalize, this`lastHeader, this`oe, this`ranHere
      ensures Valid() && !ranHere && !oe.run.Running? && (r.Reply? ==> finalize.Some?)
      ensures oe.initialized && oe.request == old(oe).request
      ensures old(Intact()) ==>
                && (r.Reply? <==> old(Plain(oe.request.value)).Some?)
                && (r.Reply? ==> old(Plain(oe.request.value)).value == Block(cms.working, r.results))
                && (r.NoReply? ==> cms == old(cms))
      ensures !old(Intact()) ==> cms == old(cms)
      ensures cms == old(cms).(working := cms.working)
    {
      WaitResult(None);
      ApplyNothing(cms.working);
      r := oe.run.reply;
      if r.Reply? {
        if finalize.None? {
          return NoReply(NoState);
        }
        WorkingHash();
      }
      ranHere := false;
    }

    /** Waits for the run of another block, told to stop, and forgets it and its branch. */
    method DropRun(cancel: Option<nat>)
      requires Valid() && oe.initialized
      modifies this`finalize, this`lastHeader, this`oe, this`ranHere
      ensures Valid() && !ranHere && finalize.None? && !oe.initialized && !oe.run.Running?
    {
      WaitResult(cancel);
      finalize, ranHere := None, false;
      oe := Oe(false, None, oe.run);
    }

    // -------------------------------------------------------------------------
    // The start and the end of a block
    // -------------------------------------------------------------------------

    /** The genesis is written to the finalize branch and stays there until the first block. */
    method InitChain(g: Genesis) returns (ok: bool)
      requires Valid() && oe.run.Idle?
      modifies this`cms, this`initialHeight, this`finalize, this`check, this`pristine
      ensures Valid()
      ensures g.chainId != config.chainId ==> !ok && unchanged(this)
      ensures g.chainId == config.chainId ==>
                && initialHeight == (if g.initialHeight == 0 then 1 else g.initialHeight)
                && cms == old(cms).(
                     initialVersion := if g.initialHeight > 1 then g.initialHeight else old(cms).initialVersion)
      ensures cms.working == map[] ==> (ok <==> g.chainId == config.chainId && GenesisWrites(h, g).Some?)
      ensures cms.working == map[] && ok ==>
                finalize == Some(GenesisWrites(h, g).value) && pristine == GenesisWrites(h, g).value
    {
      if g.chainId != config.chainId {
        return false;
      }
      initialHeight := if g.initialHeight == 0 then 1 else g.initialHeight;
      var header := Header(0, g.time, [], [], []);
      if g.initialHeight > 1 {
        header := header.(height := g.initialHeight);
        cms := cms.(initialVersion := g.initialHeight);
      }
      finalize := Some(map[]);
      pristine := map[];
      check := SetState(Check, header, map[]);
      if g.params.Some? {
        var stored := h.storeParams(g.params.value);
        if stored.None? {
          return false;
        }
        finalize := stored;
        pristine := stored.value;
      }
      var writes := h.initChain(header, g.appState, Apply(cms.working, finalize.value));
      check := check.(ctx := check.ctx.(header := header.(height := g.initialHeight)));
      if writes.None? {
        pristine := finalize.value;
        return false;
      }
      finalize := Some(finalize.value + writes.value);
      pristine := finalize.value;
      return true;
    }

    /** Commits what has been written; what the pre-commit hook writes to the finalize branch is lost. */
    method Commit(precommit: Writes, prepareCheck: Writes) returns (ok: bool)
      requires Valid() && !oe.run.Running?
      modifies this`cms, this`finalize, this`check, this`pristine, this`ranHere
      ensures ok <==> old(finalize).Some?
      ensures !ok ==> cms == old(cms)
      ensures ok ==>
                && cms.committed == cms.working == old(cms).working && cms.initialVersion == old(cms).initialVersion
                && cms.last ==
                   (if old(cms).last == 0 && cms.initialVersion > 1 then cms.initialVersion else old(cms).last + 1)
                && finalize.None? && pristine == map[] && check.writes == prepareCheck && check.parent == map[]
      ensures Valid() && !ranHere
    {
      ranHere := false;
      if finalize.None? {
        return false;
      }
      finalize := Some(finalize.value + precommit);
      cms := Cms(cms.working, cms.working,
                 if cms.last == 0 && cms.initialVersion > 1 then cms.initialVersion else cms.last + 1,
                 cms.initialVersion);
      check := SetState(Check, lastHeader, map[]);
      finalize, pristine := None, map[];
      check := check.(writes := prepareCheck);
      return true;
    }

    /** The process ends, at any moment, and is started again: only the committed store survives. */
    method Restart()
      modifies this
      ensures Valid() && cms == Cms(old(cms).committed, old(cms).committed, old(cms).last, 0) && initialHeight == 0
      ensures finalize.None? && oe == Oe(false, None, Idle) && pristine == map[] && !ranHere
    {
      cms, initialHeight := Cms(cms.committed, cms.committed, cms.last, 0), 0;
      finalize, prepare, process, oe := None, None, None, Oe(false, None, Idle);
      pristine, ranHere, lastHeader := map[], false, Header(0, 0, [], [], []);
      check := SetState(Check, lastHeader, map[]);
    }
  }

  /** The run notices the cancellation at one of its points. */
  predicate Cuts(cancel: Option<nat>, req: Request) {
    cancel.Some? && cancel.value <= |req.txs| + 1
  }

  function Held(w: Option<Writes>): Writes {
    if w.Some? then w.value else map[]
  }
}
