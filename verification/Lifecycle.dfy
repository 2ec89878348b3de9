/** Whole runs of a node: what ends up committed depends on the genesis and the finalized blocks only. */
module Lifecycle {
  import opened Bytes
  import opened Branches
  import opened GasMeters
  import opened Transactions
  import opened BlockExecution
  import BlockTraces
  import opened Application
  import opened Hiding
  import opened Options

  /** The calls a node receives, in any legal order; the process may also be restarted. */
  datatype Call =
    | InitChain(genesis: Genesis)
    | CheckTx(raw: Key, recheck: bool, stuck: bool)
    | Simulate(raw: Key)
    | PrepareProposal(req: Request, script: Script, cancel: Option<nat>)
    | ProcessProposal(req: Request, script: Script, cancel: Option<nat>)
    | Vote(height: int)
    | FinalizeBlock(req: Request, abortAnyway: bool, cancel: Option<nat>)
    | Commit(precommit: Writes, prepareCheck: Writes)
    | Restart

  datatype Phase = NeedsGenesis | Open | Decided(req: Request) | Stopped

  /** Whether an optimistic run is going on, has come to its own end, or was disturbed. */
  datatype RunState = Going | Whole | Broken

  /** The block whose optimistic run is registered. */
  datatype Ahead = Ahead(req: Request, run: RunState)

  /** What a run has come to: the genesis, the blocks that are committed, and the block executed ahead. */
  datatype History = History(phase: Phase, genesis: Option<Genesis>, blocks: seq<Request>, ahead: Option<Ahead>)

  function NextHeight(hist: History): int {
    if hist.blocks != [] then hist.blocks[|hist.blocks| - 1].height + 1
    else if hist.genesis.None? then 0
    else if hist.genesis.value.initialHeight == 0 then 1
    else hist.genesis.value.initialHeight
  }

  /**
   * The call order of the consensus engine. With optimistic execution the block that is finalized
   * may be one whose optimistic run is still going on or has come to its own end, but not one
   * whose run was disturbed. Equal hashes stand for equal requests.
   */
  predicate Legal(hist: History, call: Call) {
    match call
    case InitChain(g) => hist.phase.NeedsGenesis? && g.initialHeight >= 0
    case CheckTx(_, _, _) => true
    case Simulate(_) => true
    case PrepareProposal(req, _, _) => hist.phase.Open? && req.height == NextHeight(hist)
    case ProcessProposal(req, _, _) => hist.phase.Open? && req.height == NextHeight(hist)
    case Vote(height) => hist.phase.Open? && height == NextHeight(hist)
    case FinalizeBlock(req, abortAnyway, _) =>
      && hist.phase.Open? && req.height == NextHeight(hist)
      && (hist.ahead.Some? && hist.ahead.value.req.hash == req.hash ==>
            hist.ahead.value.req == req && (abortAnyway || !hist.ahead.value.run.Broken?))
    case Commit(_, _) => hist.phase.Decided?
    case Restart => true
  }

  /** The store is that of the chain. */
  ghost predicate IsChain(h: Handlers, g: Genesis, blocks: seq<Request>, s: State) {
    forall z: int {:trigger Unfold(z)} :: Guard(z) ==> exists w: int {:trigger Fold(w)} ::
      Fold(w) && Chain(h, g, blocks) == Some(s)
  }

  lemma ChainParts(h: Handlers, g: Genesis, blocks: seq<Request>, s: State)
    requires IsChain(h, g, blocks, s)
    ensures Chain(h, g, blocks) == Some(s)
  {
    assert Unfold(0);
  }

  lemma ChainWhole(h: Handlers, g: Genesis, blocks: seq<Request>, s: State)
    requires Chain(h, g, blocks) == Some(s)
    ensures IsChain(h, g, blocks, s)
  {
    assert Unfold(0) && Fold(0);
  }

  /** What is committed is the chain of the committed blocks. */
  ghost predicate Committed(app: BaseApp, hist: History)
    reads app
  {
    if hist.blocks == [] then app.cms.committed == map[] && app.cms.last == 0
    else
      && hist.genesis.Some? && IsChain(app.h, hist.genesis.value, hist.blocks, app.cms.committed)
      && app.cms.last == hist.blocks[|hist.blocks| - 1].height && app.cms.last >= 1
  }

  ghost predicate AtGenesis(app: BaseApp, hist: History)
    reads app
  {
    && hist.blocks == [] && app.cms.working == map[] && app.finalize.None? && app.oe.run.Idle?
    && app.initialHeight == 0 && app.cms.initialVersion == 0
  }

  /** Between blocks: the genesis is still in the finalize branch, or everything is committed. */
  ghost predicate BetweenBlocks(app: BaseApp, hist: History)
    reads app
  {
    && hist.genesis.Some? && app.cms.working == app.cms.committed && (app.Clean() || app.ranHere)
    && if hist.blocks == [] then
         && GenesisWrites(app.h, hist.genesis.value) == Some(app.pristine) && app.Clean() && app.oe.run.Idle?
         && app.finalize.Some? && app.initialHeight == NextHeight(hist) >= 1
         && app.cms.initialVersion == if app.initialHeight > 1 then app.initialHeight else 0
       else app.pristine == map[] && app.initialHeight <= app.cms.last
  }

  /** A block is written to the root store but not committed. */
  ghost predicate BlockDecided(app: BaseApp, hist: History)
    reads app
  {
    && hist.genesis.Some? && hist.phase.Decided? && app.finalize.Some? && !app.oe.run.Running?
    && IsChain(app.h, hist.genesis.value, hist.blocks + [hist.phase.req], app.cms.working)
    && hist.phase.req.height >= 1 && app.initialHeight <= hist.phase.req.height
    && hist.phase.req.height
       == if app.cms.last == 0 && app.cms.initialVersion > 1 then app.cms.initialVersion else app.cms.last + 1
  }

  /** What the history says about the block executed ahead is so. */
  ghost predicate RunsAsNoted(app: BaseApp, hist: History)
    reads app
  {
    match hist.ahead
    case None => !app.oe.initialized
    case Some(a) =>
      && app.oe.initialized && app.oe.request == Some(a.req)
      && (a.run.Going? ==> app.oe.run.Running?) && (a.run.Whole? ==> app.oe.run.Ended? && app.Intact())
  }

  ghost predicate Follows(app: BaseApp, hist: History)
    reads app
  {
    && app.Valid() && Committed(app, hist)
    && match hist.phase
       case NeedsGenesis => AtGenesis(app, hist)
       case Open => BetweenBlocks(app, hist) && RunsAsNoted(app, hist)
       case Decided(_) => BlockDecided(app, hist) && RunsAsNoted(app, hist)
       case Stopped => true
  }

  /** Whether a call succeeds, as far as the history depends on it. */
  predicate Succeeds(h: Handlers, config: Config, hist: History, call: Call) {
    match call
    case InitChain(g) => g.chainId == config.chainId && GenesisWrites(h, g).Some?
    case FinalizeBlock(req, _, _) =>
      !Halts(config, req) && hist.genesis.Some? && Chain(h, hist.genesis.value, hist.blocks + [req]).Some?
    case _ => true
  }

  /** The node accepts a proposal on the store of the committed blocks. */
  predicate Accepts(h: Handlers, hist: History, script: Script)
    requires hist.genesis.Some?
  {
    var last := Chain(h, hist.genesis.value, hist.blocks);
    script.answer == Accept && last.Some? && BlockMeter(h.params(last.value)).Some?
  }

  /** The run is stopped, unless it ends before it notices. */
  function StoppedAt(ahead: Option<Ahead>, cancel: Option<nat>): Option<Ahead> {
    match ahead
    case None => None
    case Some(a) => if a.run.Going? then Some(a.(run := if Cuts(cancel, a.req) then Broken else Whole)) else ahead
  }

  function Disturbed(ahead: Option<Ahead>): Option<Ahead> {
    if ahead.None? then None else Some(ahead.value.(run := Broken))
  }

  /** After the first block an accepted proposal is executed ahead, and any proposal disturbs what was. */
  function Processed(h: Handlers, config: Config, hist: History, req: Request, script: Script): Option<Ahead> {
    if hist.blocks == [] || hist.genesis.None? then hist.ahead
    else if config.oeEnabled && Accepts(h, hist, script) then Some(Ahead(req, Going))
    else Disturbed(hist.ahead)
  }

  /** What a call makes of the history, given whether it succeeded. */
  function Advance(h: Handlers, config: Config, hist: History, call: Call, ok: bool): History {
    match call
    case InitChain(g) => History(if ok then Open else Stopped, Some(g), [], None)
    case PrepareProposal(_, _, cancel) => hist.(ahead := StoppedAt(hist.ahead, cancel))
    case ProcessProposal(req, script, _) => hist.(ahead := Processed(h, config, hist, req, script))
    case FinalizeBlock(req, abortAnyway, _) =>
      var used := hist.ahead.Some? && hist.ahead.value.req.hash == req.hash && !abortAnyway;
      hist.(phase := if ok then Decided(req) else Stopped, ahead := if used then Disturbed(hist.ahead) else None)
    case Commit(_, _) =>
      if !hist.phase.Decided? then hist
      else History(Open, hist.genesis, hist.blocks + [hist.phase.req], Disturbed(hist.ahead))
    case Restart => if hist.blocks == [] then START else hist.(phase := Open, ahead := None)
    case _ => hist
  }

  const START := History(NeedsGenesis, None, [], None)

  method Init(app: BaseApp, call: Call, hist: History) returns (ok: bool)
    requires Follows(app, hist) && Legal(hist, call) && call.InitChain?
    modifies app
    ensures Follows(app, Advance(app.h, app.config, hist, call, ok)) && ok == Succeeds(app.h, app.config, hist, call)
  {
    ok := app.InitChain(call.genesis);
  }

  method Look(app: BaseApp, call: Call, hist: History)
    requires Follows(app, hist) && Legal(hist, call) && (call.CheckTx? || call.Simulate? || call.Vote?)
    modifies app
    ensures Follows(app, hist)
  {
    match call {
      case CheckTx(raw, recheck, stuck) => var _ := app.CheckTx(raw, recheck, stuck);
      case Simulate(raw) => var _ := app.Simulate(raw);
      case Vote(height) => var _ := app.VoteExtensionState(height);
    }
  }

  method Prepare(app: BaseApp, call: Call, hist: History)
    requires Follows(app, hist) && Legal(hist, call) && call.PrepareProposal?
    modifies app
    ensures Follows(app, Advance(app.h, app.config, hist, call, true))
  {
    var _ := app.PrepareProposal(call.req, call.script, call.cancel);
  }

  /** Whether the history accepts a proposal is what the node decides on its root store. */
  lemma AcceptsHere(app: BaseApp, hist: History, script: Script)
    requires Follows(app, hist) && hist.phase.Open?
    ensures Apply(app.cms.working, map[]) == app.cms.working && hist.genesis.Some?
    ensures hist.blocks != [] ==>
              (Accepts(app.h, hist, script) <==>
                 script.answer == Accept && BlockMeter(app.h.params(app.cms.working)).Some?)
  {
    ApplyNothing(app.cms.working);
    ChainSoFar(app, hist);
  }

  method Process(app: BaseApp, call: Call, hist: History)
    requires Follows(app, hist) && Legal(hist, call) && call.ProcessProposal?
    modifies app
    ensures Follows(app, Advance(app.h, app.config, hist, call, true))
  {
    AcceptsHere(app, hist, call.script);
    ghost var ahead := Processed(app.h, app.config, hist, call.req, call.script);
    var _ := app.ProcessProposal(call.req, call.script, call.cancel);
    assert RunsAsNoted(app, hist.(ahead := ahead));
  }

  /** Between blocks the root store is that of the chain, with the genesis in the branch before the first block. */
  lemma ChainSoFar(app: BaseApp, hist: History)
    requires Follows(app, hist) && hist.phase.Open?
    ensures hist.genesis.Some? && app.cms.working == app.cms.committed
    ensures Chain(app.h, hist.genesis.value, hist.blocks) == Some(app.cms.working)
    ensures if hist.blocks == [] then GenesisWrites(app.h, hist.genesis.value) == Some(app.pristine)
            else app.pristine == map[]
  {
    if hist.blocks != [] {
      ChainParts(app.h, hist.genesis.value, hist.blocks, app.cms.committed);
    }
  }

  /** The node takes the next block unless it is configured to halt. */
  lemma TakesNext(app: BaseApp, call: Call, hist: History)
    requires Follows(app, hist) && Legal(hist, call) && call.FinalizeBlock?
    ensures app.Takes(call.req) <==> !Halts(app.config, call.req)
  {
  }

  /** What the block does without optimistic execution extends the chain. */
  lemma PlainExtends(app: BaseApp, req: Request, g: Genesis, blocks: seq<Request>)
    requires Chain(app.h, g, blocks) == Some(app.cms.working) && app.cms.working == app.cms.committed
    requires if blocks == [] then GenesisWrites(app.h, g) == Some(app.pristine) else app.pristine == map[]
    ensures app.Plain(req).Some? <==> app.Takes(req) && Chain(app.h, g, blocks + [req]).Some?
    ensures app.Plain(req).Some? ==> IsChain(app.h, g, blocks + [req], app.Plain(req).value.state)
  {
    ChainGrows(app.h, g, blocks, app.cms.working, app.pristine, req);
    if app.Plain(req).Some? {
      ChainWhole(app.h, g, blocks + [req], app.Plain(req).value.state);
    }
  }

  /** A run that is registered for the block has not been disturbed. */
  lemma NotedMatches(app: BaseApp, call: Call, hist: History)
    requires Follows(app, hist) && Legal(hist, call) && call.FinalizeBlock?
    ensures app.Matches(call.req) <==> hist.ahead.Some? && hist.ahead.value.req.hash == call.req.hash
    ensures app.Matches(call.req) ==> app.oe.request.value == call.req && (call.abortAnyway || app.Intact())
  {
  }

  method Finalize(app: BaseApp, call: Call, hist: History) returns (ok: bool)
    requires Follows(app, hist) && Legal(hist, call) && call.FinalizeBlock?
    modifies app
    ensures Follows(app, Advance(app.h, app.config, hist, call, ok)) && ok == Succeeds(app.h, app.config, hist, call)
  {
    ChainSoFar(app, hist);
    TakesNext(app, call, hist);
    PlainExtends(app, call.req, hist.genesis.value, hist.blocks);
    NotedMatches(app, call, hist);
    var r := app.FinalizeBlock(call.req, call.abortAnyway, call.cancel);
    return r.Reply?;
  }

  method CommitBlock(app: BaseApp, call: Call, hist: History)
    requires Follows(app, hist) && Legal(hist, call) && call.Commit?
    modifies app
    ensures Follows(app, Advance(app.h, app.config, hist, call, true))
  {
    var _ := app.Commit(call.precommit, call.prepareCheck);
  }

  method StartAgain(app: BaseApp, hist: History)
    requires Follows(app, hist)
    modifies app
    ensures Follows(app, Advance(app.h, app.config, hist, Restart, true))
  {
    app.Restart();
  }

  /** One legal call. */
  method Do(app: BaseApp, call: Call, hist: History) returns (ok: bool)
    requires Follows(app, hist) && Legal(hist, call)
    modifies app
    ensures Follows(app, Advance(app.h, app.config, hist, call, ok)) && ok == Succeeds(app.h, app.config, hist, call)
  {
    ok := true;
    match call {
      case InitChain(_) => ok := Init(app, call, hist);
      case CheckTx(_, _, _) => Look(app, call, hist);
      case Simulate(_) => Look(app, call, hist);
      case PrepareProposal(_, _, _) => Prepare(app, call, hist);
      case ProcessProposal(_, _, _) => Process(app, call, hist);
      case Vote(_) => Look(app, call, hist);
      case FinalizeBlock(_, _, _) => ok := Finalize(app, call, hist);
      case Commit(_, _) => CommitBlock(app, call, hist);
      case Restart => StartAgain(app, hist);
    }
  }

  /** One call, and the history after it. */
  method Turn(app: BaseApp, call: Call, hist: History) returns (hist': History)
    requires Follows(app, hist) && Legal(hist, call)
    modifies app
    ensures Follows(app, hist')
    ensures hist' == Advance(app.h, app.config, hist, call, Succeeds(app.h, app.config, hist, call))
  {
    var ok := Do(app, call, hist);
    hist' := Advance(app.h, app.config, hist, call, ok);
  }

  /** The history of the first `n` calls of a run; it does not mention the node. */
  function HistoryOf(h: Handlers, config: Config, calls: seq<Call>, n: nat): History
    requires n <= |calls|
  {
    if n == 0 then START
    else
      var hist := HistoryOf(h, config, calls, n - 1);
      Advance(h, config, hist, calls[n - 1], Succeeds(h, config, hist, calls[n - 1]))
  }

  /** The first `n` calls come in a legal order. */
  ghost predicate LegalSoFar(h: Handlers, config: Config, calls: seq<Call>, n: nat) {
    forall z: int {:trigger Unfold(z)} :: Guard(z) ==> exists w: int {:trigger Fold(w)} ::
      Fold(w) && n <= |calls| && forall i :: 0 <= i < n ==> LegalAt(h, config, calls, i)
  }

  predicate LegalAt(h: Handlers, config: Config, calls: seq<Call>, i: nat) {
    i < |calls| && Legal(HistoryOf(h, config, calls, i), calls[i])
  }

  lemma LegalNone(h: Handlers, config: Config, calls: seq<Call>)
    ensures LegalSoFar(h, config, calls, 0)
  {
    assert Unfold(0) && Fold(0);
  }

  lemma LegalNext(h: Handlers, config: Config, calls: seq<Call>, n: nat)
    requires n < |calls| && LegalSoFar(h, config, calls, n) && Legal(HistoryOf(h, config, calls, n), calls[n])
    ensures LegalSoFar(h, config, calls, n + 1)
  {
    forall i | 0 <= i < n + 1 ensures LegalAt(h, config, calls, i) {
      if i < n {
        LegalBefore(h, config, calls, n, i);
      }
    }
    assert Unfold(0) && Fold(0);
  }

  lemma LegalBefore(h: Handlers, config: Config, calls: seq<Call>, n: nat, i: nat)
    requires LegalSoFar(h, config, calls, n) && i < n
    ensures LegalAt(h, config, calls, i)
  {
    assert Unfold(0);
  }

  lemma LegalEnd(h: Handlers, config: Config, calls: seq<Call>, n: nat)
    requires n <= |calls| && LegalSoFar(h, config, calls, n)
    requires n < |calls| ==> !Legal(HistoryOf(h, config, calls, n), calls[n])
    ensures LegalUpTo(h, config, calls, n)
  {
    assert Unfold(0);
  }

  /** The first `n` calls come in a legal order, and the next one, if any, does not. */
  predicate LegalUpTo(h: Handlers, config: Config, calls: seq<Call>, n: nat) {
    && n <= |calls|
    && (forall i :: 0 <= i < n ==> LegalAt(h, config, calls, i))
    && !LegalAt(h, config, calls, n)
  }

  /**
   * A node takes calls for as long as they come in a legal order, which the calls themselves
   * decide. Whatever proposals, checks, simulations, votes, stopped optimistic runs, failed blocks,
   * restarts and replays there are in between, the committed store is the one that the genesis
   * and the committed blocks alone lead to, and which blocks are committed depends on the calls alone.
   */
  method Drive(h: Handlers, config: Config, calls: seq<Call>) returns (app: BaseApp, n: nat, hist: History)
    ensures LegalUpTo(h, config, calls, n) && hist == HistoryOf(h, config, calls, n)
    ensures hist.blocks == [] ==> app.cms.committed == map[]
    ensures hist.blocks != [] ==>
              hist.genesis.Some? && Chain(h, hist.genesis.value, hist.blocks) == Some(app.cms.committed)
    ensures hist.blocks != [] ==>
              exists r :: BlockTraces.IsChainRun(h, hist.genesis.value, hist.blocks, r)
                          && r.stores[|hist.blocks|] == app.cms.committed
    ensures fresh(app)
  {
    app := new BaseApp(h, config, Cms(map[], map[], 0, 0));
    n, hist := 0, START;
    LegalNone(h, config, calls);
    while n < |calls| && Legal(hist, calls[n])
      invariant n <= |calls| && hist == HistoryOf(h, config, calls, n) && LegalSoFar(h, config, calls, n)
      invariant Follows(app, hist) && app.h == h && app.config == config && fresh(app)
      decreases |calls| - n
    {
      LegalNext(h, config, calls, n);
      hist := Turn(app, calls[n], hist);
      n := n + 1;
    }
    LegalEnd(h, config, calls, n);
    if hist.blocks != [] {
      ChainParts(h, hist.genesis.value, hist.blocks, app.cms.committed);
      ghost var r := BlockTraces.ChainTraced(h, hist.genesis.value, hist.blocks);
    }
  }

  /**
   * Two nodes, with or without optimistic execution, that were driven by different calls, have
   * committed the same store if they have the same genesis and blocks; those follow from the
   * calls and the settings alone.
   */
  method SameBlocksSameStore(h: Handlers, config: Config, calls: seq<Call>, config': Config, calls': seq<Call>)
    returns (app: BaseApp, n: nat, hist: History, app': BaseApp, n': nat, hist': History)
    ensures LegalUpTo(h, config, calls, n) && hist == HistoryOf(h, config, calls, n)
    ensures LegalUpTo(h, config', calls', n') && hist' == HistoryOf(h, config', calls', n')
    ensures hist.blocks != [] ==>
              hist.genesis.Some? && Chain(h, hist.genesis.value, hist.blocks) == Some(app.cms.committed)
    ensures hist'.blocks != [] ==>
              hist'.genesis.Some? && Chain(h, hist'.genesis.value, hist'.blocks) == Some(app'.cms.committed)
    ensures hist.blocks == hist'.blocks && (hist.blocks != [] ==> hist.genesis == hist'.genesis) ==>
              app.cms.committed == app'.cms.committed
  {
    app, n, hist := Drive(h, config, calls);
    app', n', hist' := Drive(h, config', calls');
  }

  // ---------------------------------------------------------------------------
  // A block whose optimistic run was stopped
  // ---------------------------------------------------------------------------

  /** The node is executing `first` ahead, and `first` changes the store; `second` is another proposal. */
  ghost predicate RunsAhead(app: BaseApp, first: Request, second: Request)
    reads app
  {
    && app.Valid() && app.oe == Oe(true, Some(first), Running)
    && first.hash != second.hash && second.height >= 1 && second.height > app.initialHeight
    && app.Plain(first).Some? && app.Plain(first).value.state != app.cms.working
  }

  /**
   * While one proposal is executed ahead, the node is asked about another; then the first is
   * decided after all. If the second was accepted, the first has its plain effect. If it was
   * rejected, the stopped run still counts as that of the decided block, but its branch is gone:
   * whatever is answered, nothing of the block reaches the root store.
   */
  method StoppedRunIsReused(app: BaseApp, first: Request, second: Request, script: Script, cancel: Option<nat>)
    returns (accepted: bool, reply: Reply)
    requires RunsAhead(app, first, second)
    modifies app
    ensures accepted <==> script.answer == Accept
    ensures accepted ==> reply.Reply? && old(app.Plain(first)) == Some(Block(app.cms.working, reply.results))
    ensures !accepted ==> app.cms == old(app.cms)
    ensures app.cms.working == old(app.Plain(first)).value.state <==> script.answer == Accept
  {
    accepted := app.ProcessProposal(second, script, cancel);
    reply := app.FinalizeBlock(first, false, None);
  }

  /** An application whose blocks store their height and do nothing else. */
  function Marker(): Handlers {
    Handlers(
      _ => Params(None, []), _ => None, _ => true,
      (_, _, _) => Step(Done, map[], Infinite(0)),
      (_, _, _, _, _) => Step(Done, map[], Infinite(0)),
      (_, _, _, _, gas) => Step(Done, map[], gas),
      (c: Ctx, _, _) => Some(map[[7] := Some([c.header.height % 256])]), (_, _) => Some(map[]), (_, _) => Some(map[]),
      _ => Some(map[]), (_, _, _) => Some(map[]), _ => [])
  }

  lemma MarkerSets(last: State, s: State, req: Request)
    requires req.txs == []
    ensures ExecuteBlock(Marker(), last, s, req, {}) == Some(Block(s[[7] := [req.height % 256]], []))
  {
    var w := map[[7] := Some([req.height % 256])];
    ApplyNothing(Apply(s, w));
    assert Apply(s, w) == s[[7] := [req.height % 256]];
  }

  /** A chain is started, and its first block is committed. */
  method FirstBlock() returns (app: BaseApp)
    ensures app.h == Marker() && app.config == Config([], 0, 0, true) && fresh(app)
    ensures app.Valid() && app.Clean() && app.initialHeight == 1
    ensures app.cms.working == app.cms.committed == map[[7] := [1]] && app.cms.last == 1
  {
    app := new BaseApp(Marker(), Config([], 0, 0, true), Cms(map[], map[], 0, 0));
    var block := Request(1, 0, [1], [], []);
    var _ := app.InitChain(Genesis([], 1, 0, None, []));
    ApplyNothing(map[]);
    MarkerSets(map[], map[], block);
    var _ := app.FinalizeBlock(block, false, None);
    var _ := app.Commit(map[], map[]);
  }

  /** Then the next proposal is accepted, and the node runs ahead. */
  method RunsAheadHappens() returns (app: BaseApp, first: Request, second: Request)
    ensures RunsAhead(app, first, second) && fresh(app)
  {
    app := FirstBlock();
    first, second := Request(2, 0, [2], [], []), Request(2, 0, [3], [], []);
    var _ := app.ProcessProposal(first, Script([], Accept), None);
    ApplyNothing(app.cms.working);
    MarkerSets(app.cms.committed, app.cms.working, first);
    assert app.Plain(first).value.state[[7]] == [2];
  }
}
