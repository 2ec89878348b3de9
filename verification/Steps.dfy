/** The steps of a resolution, as relations between snapshots of a container. */
module Steps {
  import opened ProviderGraph
  import opened Resolution
  import opened Registration
  import opened Chains
  import opened Hiding
  import opened Options

  /**
   * What a resolution changes: the graph, the memo, the log, the locations being called, a call
   * that failed, and the stack of calls.
   */
  datatype Snap = Snap(
    g: Graph, m: Memo, log: seq<Run>, calling: set<Location>, failed: Option<Run>, stack: seq<Runner>)

  /** What it does not change: the types, the graph it started with, the root, the locations of all providers. */
  datatype Env = Env(ts: TypeSystem, start: Graph, root: nat, locs: set<Location>)

  ghost predicate StackedAt(e: Env, s: Snap) {
    Stacked(e.start, e.root, s.g, s.calling, s.stack)
  }

  ghost predicate WantedAt(e: Env, s: Snap, dep: Runner) {
    Wanted(e.start, e.root, s.g, s.stack, dep)
  }

  ghost predicate WantedAllAt(e: Env, s: Snap, r: Resolver, key: Option<Module>) {
    WantedAll(e.start, e.root, s.g, s.stack, r, key)
  }

  ghost predicate BlameAt(e: Env, s: Snap, err: ResolveError) {
    Blame(e.ts, e.start, e.root, s.g, s.calling, s.stack, s.failed.Some?, err)
  }

  /** Every provider of the graph has one of the given locations. */
  ghost predicate LocatedIn(g: Graph, locs: set<Location>) {
    && (forall n :: 0 <= n < |g.simple| ==> g.simple[n].provider.loc in locs)
    && (forall n :: 0 <= n < |g.scoped| ==> g.scoped[n].loc in locs)
    && (forall n :: 0 <= n < |g.invokers| ==> g.invokers[n].provider.loc in locs)
  }

  /** What holds between any two steps, also of a resolution that fails. */
  ghost predicate Ready(e: Env, s: Snap) {
    forall z: int {:trigger Unfold(z)} :: Guard(z) ==> exists w: int {:trigger Fold(w)} ::
      && Fold(w)
      && StateOk(e.start, s.g, s.m, s.log) && Contents(e.ts, s.g) && LocatedIn(s.g, e.locs)
      && Failed(e.start, s.g, s.m, s.log, s.failed)
  }

  /** Nothing has failed so far. */
  ghost predicate Going(e: Env, s: Snap) {
    forall z: int {:trigger Unfold(z)} :: Guard(z) ==> exists w: int {:trigger Fold(w)} ::
      Fold(w) && Ready(e, s) && s.failed.None? && Undisturbed(e.start, s.g) && StackedAt(e, s)
  }

  /** A step that succeeds only adds to the state, and leaves the providers that are being called alone. */
  ghost predicate Moves(e: Env, s: Snap, s': Snap, ok: bool) {
    forall z: int {:trigger Unfold(z)} :: Guard(z) ==> exists w: int {:trigger Fold(w)} ::
      && Fold(w) && Ready(e, s')
      && (ok ==>
            && Going(e, s') && s'.calling == s.calling && s'.stack == s.stack
            && Advances(s.g, s.m, s.log, s'.g, s'.m, s'.log, s.calling))
  }

  lemma ReadyParts(e: Env, s: Snap)
    requires Ready(e, s)
    ensures StateOk(e.start, s.g, s.m, s.log) && Contents(e.ts, s.g) && LocatedIn(s.g, e.locs)
    ensures Failed(e.start, s.g, s.m, s.log, s.failed)
  {
    assert Unfold(0);
  }

  lemma ReadyWhole(e: Env, s: Snap)
    requires StateOk(e.start, s.g, s.m, s.log) && Contents(e.ts, s.g) && LocatedIn(s.g, e.locs)
    requires Failed(e.start, s.g, s.m, s.log, s.failed)
    ensures Ready(e, s)
  {
    assert Unfold(0) && Fold(0);
  }

  lemma GoingParts(e: Env, s: Snap)
    requires Going(e, s)
    ensures s.failed.None? && Ready(e, s) && Undisturbed(e.start, s.g) && StackedAt(e, s)
    ensures StateOk(e.start, s.g, s.m, s.log) && Contents(e.ts, s.g) && LocatedIn(s.g, e.locs)
  {
    assert Unfold(0);
  }

  lemma GoingWhole(e: Env, s: Snap)
    requires StateOk(e.start, s.g, s.m, s.log) && Contents(e.ts, s.g) && LocatedIn(s.g, e.locs)
    requires s.failed.None? && Undisturbed(e.start, s.g) && StackedAt(e, s)
    ensures Going(e, s)
  {
    assert Unfold(0) && Fold(0);
    ReadyWhole(e, s);
  }

  lemma MovesParts(e: Env, s: Snap, s': Snap, ok: bool)
    requires Moves(e, s, s', ok)
    ensures Ready(e, s') && Moves(e, s, s', false)
    ensures ok ==> Going(e, s') && s'.calling == s.calling && s'.stack == s.stack
    ensures ok ==> Advances(s.g, s.m, s.log, s'.g, s'.m, s'.log, s.calling)
  {
    assert Unfold(0) && Fold(0);
  }

  lemma MovesWhole(e: Env, s: Snap, s': Snap)
    requires Going(e, s') && s'.calling == s.calling && s'.stack == s.stack
    requires Advances(s.g, s.m, s.log, s'.g, s'.m, s'.log, s.calling)
    ensures Moves(e, s, s', true) && Moves(e, s, s', false)
  {
    GoingParts(e, s');
    assert Unfold(0) && Fold(0);
  }

  lemma MovesError(e: Env, s: Snap, s': Snap)
    requires Ready(e, s')
    ensures Moves(e, s, s', false)
  {
    assert Unfold(0) && Fold(0);
  }

  lemma MovesStill(e: Env, s: Snap)
    requires Going(e, s)
    ensures Moves(e, s, s, true) && Moves(e, s, s, false)
  {
    AdvancesStill(s.g, s.m, s.log, s.calling);
    MovesWhole(e, s, s);
  }

  lemma MovesThen(e: Env, s: Snap, s': Snap, s'': Snap, ok: bool)
    requires Moves(e, s, s', true) && Moves(e, s', s'', ok)
    ensures Moves(e, s, s'', ok)
  {
    MovesParts(e, s, s', true);
    MovesParts(e, s', s'', ok);
    if ok {
      AdvancesTransitive(s.g, s.m, s.log, s'.g, s'.m, s'.log, s''.g, s''.m, s''.log, s.calling, s.calling);
      MovesWhole(e, s, s'');
    } else {
      MovesError(e, s, s'');
    }
  }

  /** Nodes, and the groups and tables that there are, stay. */
  lemma MovesNodes(e: Env, s: Snap, s': Snap, r: Resolver)
    requires Moves(e, s, s', true) && ValidResolver(s.g, r)
    ensures s'.g.simple == s.g.simple && s'.g.scoped == s.g.scoped && ValidResolver(s'.g, r)
    ensures Going(e, s') && s'.calling == s.calling && s'.stack == s.stack
  {
    MovesParts(e, s, s', true);
    AdvancesParts(s.g, s.m, s.log, s'.g, s'.m, s'.log, s.calling);
  }

  lemma MovesGroup(e: Env, s: Snap, s': Snap, t: Type)
    requires Moves(e, s, s', true)
    ensures t in s.g.groups ==> t in s'.g.groups && s'.g.groups[t] == s.g.groups[t]
    ensures t in s.g.perModule ==> t in s'.g.perModule && s'.g.perModule[t] == s.g.perModule[t]
  {
    MovesParts(e, s, s', true);
    AdvancesGroup(s.g, s.m, s.log, s'.g, s'.m, s'.log, s.calling, t);
  }

  /** What is wanted stays wanted. */
  lemma MovesWanted(e: Env, s: Snap, s': Snap, dep: Runner)
    requires Going(e, s) && Moves(e, s, s', true) && WantedAt(e, s, dep)
    ensures WantedAt(e, s', dep)
  {
    GoingParts(e, s);
    MovesParts(e, s, s', true);
    StateParts(e.start, s.g, s.m, s.log);
    AdvancesParts(s.g, s.m, s.log, s'.g, s'.m, s'.log, s.calling);
    WantedStable(e.start, e.root, s.g, s'.g, s.stack, dep);
  }

  lemma GoingNode(e: Env, s: Snap, n: nat)
    requires Going(e, s)
    ensures n < |s.g.simple| ==> s.g.simple[n].provider.loc in e.locs
    ensures n < |s.g.scoped| ==> s.g.scoped[n].loc in e.locs
    ensures n < |s.g.invokers| ==> s.g.invokers[n].provider.loc in e.locs
  {
    GoingParts(e, s);
  }

  lemma GoingInvokers(e: Env, s: Snap)
    requires Going(e, s)
    ensures s.g.invokers == e.start.invokers
  {
    GoingParts(e, s);
    StateParts(e.start, s.g, s.m, s.log);
  }

  lemma GoingOutput(e: Env, s: Snap, t: Type, i: nat)
    requires Going(e, s) && t in s.g.groups && i < |s.g.groups[t]|
    ensures ValidOutput(s.g, s.g.groups[t][i])
  {
    GoingParts(e, s);
    StateParts(e.start, s.g, s.m, s.log);
  }

  lemma GoingEntry(e: Env, s: Snap, t: Type, k: Module)
    requires Going(e, s) && t in s.g.perModule && k in s.g.perModule[t]
    ensures ValidOutput(s.g, s.g.perModule[t][k])
  {
    GoingParts(e, s);
    StateParts(e.start, s.g, s.m, s.log);
  }

  // ---------------------------------------------------------------------------
  // Looking types up
  // ---------------------------------------------------------------------------

  /** Looking a type up during resolution changes nothing that was found before. */
  lemma FindMoves(e: Env, s: Snap, g': Graph, typ: Type, key: Option<Module>)
    requires Going(e, s) && Contents(e.ts, g') && Grows(s.g, g')
    ensures Moves(e, s, s.(g := g'), Undisturbed(s.g, g'))
    ensures Lookup(g', typ, key).Some? ==> ValidResolver(g', Lookup(g', typ, key).value)
    ensures Lookup(g', typ, key).None? ==> Lookup(e.start, typ, key).None?
  {
    GoingParts(e, s);
    ContentsParts(e.ts, g');
    GrowOk(e.start, s.g, g', s.m, s.log, s.calling);
    assert LocatedIn(g', e.locs);
    FindStacked(e, s, g');
    if Undisturbed(s.g, g') {
      UndisturbedTransitive(e.start, s.g, g');
      GoingWhole(e, s.(g := g'));
      MovesWhole(e, s, s.(g := g'));
    } else {
      ReadyWhole(e, s.(g := g'));
      MovesError(e, s, s.(g := g'));
    }
    if Lookup(g', typ, key).None? {
      FoundBefore(e, s, g', typ, key);
    }
  }

  lemma FindStacked(e: Env, s: Snap, g': Graph)
    requires Going(e, s) && Grows(s.g, g')
    ensures StackedAt(e, s.(g := g'))
  {
    GoingParts(e, s);
    StateParts(e.start, s.g, s.m, s.log);
    StackedStable(e.start, e.root, s.g, g', s.calling, s.stack);
  }

  /** What a lookup finds for an input is wanted; finding nothing is what a failure is blamed on. */
  lemma FindBlame(e: Env, s: Snap, g': Graph, input: Input, key: Option<Module>, r: Outcome<Option<Resolver>>)
    requires Going(e, s) && Grows(s.g, g') && Asked(s.g, s.stack, input, key)
    requires Finds(e.ts, s.g, input.typ, key, g', r)
    requires !input.ignored && input.typ != MODULE_KEY && input.typ != OWN_MODULE_KEY
    ensures r.Err? ==> BlameAt(e, s.(g := g'), r.error)
    ensures r == Ok(None) && !input.optional ==> BlameAt(e, s.(g := g'), Unresolved)
    ensures r.Ok? && r.value.Some? ==> WantedAllAt(e, s.(g := g'), r.value.value, key)
    ensures r.Ok? && r.value.Some? && ForElements(r.value.value) ==> BlameAt(e, s.(g := g'), NotAnInput)
  {
    FindStacked(e, s, g');
    FindsFault(e.ts, s.g, input, key, g', r);
    SameLocation(s.g, g', s.stack[|s.stack| - 1]);
    if r.Err? {
      FaultBlame(e, s.(g := g'), input, key, r.error);
    } else if r.value.None? {
      if !input.optional {
        FaultBlame(e, s.(g := g'), input, key, Unresolved);
      }
    } else {
      WantedByInput(e.start, e.root, g', s.stack, input, key, r.value.value);
      if ForElements(r.value.value) {
        FaultBlame(e, s.(g := g'), input, key, NotAnInput);
      }
    }
  }

  lemma FaultBlame(e: Env, s: Snap, input: Input, key: Option<Module>, err: ResolveError)
    requires StackedAt(e, s) && Asked(s.g, s.stack, input, key) && InputFault(e.ts, s.g, input, key, err)
    ensures BlameAt(e, s, err)
  {
    BlameInput(e.ts, e.start, e.root, s.g, s.calling, s.stack, s.failed.Some?, input, key, err);
  }

  /** A module key outside of any module. */
  lemma KeyBlame(e: Env, s: Snap, input: Input)
    requires Going(e, s) && Asked(s.g, s.stack, input, None) && !input.ignored
    requires input.typ == MODULE_KEY || input.typ == OWN_MODULE_KEY
    ensures BlameAt(e, s, OutsideModule)
  {
    GoingParts(e, s);
    FaultBlame(e, s, input, None, OutsideModule);
  }

  lemma FoundBefore(e: Env, s: Snap, g': Graph, typ: Type, key: Option<Module>)
    requires Going(e, s) && Grows(s.g, g') && Lookup(g', typ, key).None?
    ensures Lookup(e.start, typ, key).None?
  {
    GoingParts(e, s);
    StateParts(e.start, s.g, s.m, s.log);
    if Lookup(e.start, typ, key).Some? {
      LookupStable(e.start, s.g, typ, key);
      LookupStable(s.g, g', typ, key);
    }
  }

  // ---------------------------------------------------------------------------
  // Calling providers
  // ---------------------------------------------------------------------------

  /** A provider whose inputs so far have been resolved, called from the state `s0`. */
  ghost predicate Calling(e: Env, s0: Snap, s: Snap, run: Run) {
    forall z: int {:trigger Unfold(z)} :: Guard(z) ==> exists w: int {:trigger Fold(w)} ::
    && Fold(w) && Going(e, s) && s.calling == s0.calling + {run.provider.loc} && s.stack == s0.stack + [run.who]
    && Registered(s.g, run.who) == Some((run.provider, run.moduleKey))
    && Advances(s0.g, s0.m, s0.log, s.g, s.m, s.log, s.calling)
    && ServedSoFar(e.start, s.g, s.m, s.log, run.provider, run.moduleKey, run.used, run.args)
  }

  /** A provider that was called from the state `s0` on resolved inputs. */
  ghost predicate Called(e: Env, s0: Snap, s: Snap, run: Run) {
    forall z: int {:trigger Unfold(z)} :: Guard(z) ==> exists w: int {:trigger Fold(w)} ::
    && Fold(w) && Going(e, s) && s.calling == s0.calling && s.stack == s0.stack && run.provider.loc !in s.calling
    && Advances(s0.g, s0.m, s0.log, s.g, s.m, s.log, s.calling + {run.provider.loc})
    && ServedNow(e.start, s.g, s.m, s.log, run)
  }

  lemma CallingParts(e: Env, s0: Snap, s: Snap, run: Run)
    requires Calling(e, s0, s, run)
    ensures Going(e, s) && s.calling == s0.calling + {run.provider.loc} && s.stack == s0.stack + [run.who]
    ensures Registered(s.g, run.who) == Some((run.provider, run.moduleKey))
    ensures Advances(s0.g, s0.m, s0.log, s.g, s.m, s.log, s.calling)
    ensures ServedSoFar(e.start, s.g, s.m, s.log, run.provider, run.moduleKey, run.used, run.args)
  {
    assert Unfold(0);
  }

  lemma CalledParts(e: Env, s0: Snap, s: Snap, run: Run)
    requires Called(e, s0, s, run)
    ensures Going(e, s) && s.calling == s0.calling && s.stack == s0.stack && run.provider.loc !in s.calling
    ensures Advances(s0.g, s0.m, s0.log, s.g, s.m, s.log, s.calling + {run.provider.loc})
    ensures ServedNow(e.start, s.g, s.m, s.log, run)
  {
    assert Unfold(0);
  }

  lemma CallStart(e: Env, s: Snap, run: Run)
    requires Going(e, s) && run.used == [] && run.args == []
    requires WantedAt(e, s, run.who) && Registered(s.g, run.who) == Some((run.provider, run.moduleKey))
    ensures Calling(e, s, s.(calling := s.calling + {run.provider.loc}, stack := s.stack + [run.who]), run)
  {
    var s' := s.(calling := s.calling + {run.provider.loc}, stack := s.stack + [run.who]);
    GoingParts(e, s);
    StackedPush(e.start, e.root, s.g, s.calling, s.stack, run.who);
    GoingWhole(e, s');
    AdvancesStill(s.g, s.m, s.log, s'.calling);
    ServedNone(e.start, s.g, s.m, s.log, run.provider, run.moduleKey);
    assert Unfold(0) && Fold(0);
  }

  lemma CallNext(e: Env, s0: Snap, s: Snap, s': Snap, run: Run, u: Option<Resolver>, v: Value)
    requires Calling(e, s0, s, run) && Moves(e, s, s', true) && |run.args| < |run.provider.inputs|
    requires InputNow(e.start, s'.g, s'.m, s'.log, run.provider.inputs[|run.args|], run.moduleKey, u, v)
    ensures Calling(e, s0, s', run.(used := run.used + [u], args := run.args + [v]))
    ensures s'.calling == s.calling && s'.stack == s.stack
  {
    CallingParts(e, s0, s, run);
    MovesParts(e, s, s', true);
    MovesRegistered(e, s, s', run.who);
    GoingParts(e, s);
    ServedNext(e.start, s.g, s.m, s.log, s'.g, s'.m, s'.log, s.calling,
               run.provider, run.moduleKey, run.used, run.args, u, v);
    AdvancesTransitive(s0.g, s0.m, s0.log, s.g, s.m, s.log, s'.g, s'.m, s'.log, s.calling, s.calling);
    assert Unfold(0) && Fold(0);
  }

  lemma MovesRegistered(e: Env, s: Snap, s': Snap, who: Runner)
    requires Moves(e, s, s', true)
    ensures Registered(s'.g, who) == Registered(s.g, who)
  {
    MovesParts(e, s, s', true);
    AdvancesParts(s.g, s.m, s.log, s'.g, s'.m, s'.log, s.calling);
    SameLocation(s.g, s'.g, who);
  }

  /** An input of the provider that is being called. */
  lemma CallAsks(e: Env, s0: Snap, s: Snap, run: Run, i: nat)
    requires Calling(e, s0, s, run) && i < |run.provider.inputs|
    ensures Asked(s.g, s.stack, run.provider.inputs[i], run.moduleKey)
  {
    CallingParts(e, s0, s, run);
  }

  lemma CallEnd(e: Env, s0: Snap, s: Snap, run: Run)
    requires Going(e, s0) && Calling(e, s0, s, run) && |run.args| == |run.provider.inputs|
    requires run.provider.loc !in s0.calling
    ensures Called(e, s0, s.(calling := s0.calling, stack := s0.stack), run)
  {
    CallingParts(e, s0, s, run);
    GoingParts(e, s);
    AdvancesParts(s0.g, s0.m, s0.log, s.g, s.m, s.log, s.calling);
    FindStacked(e, s0, s.g);
    GoingWhole(e, s.(calling := s0.calling, stack := s0.stack));
    ServedAll(e.start, s.g, s.m, s.log, run);
    assert Unfold(0) && Fold(0);
  }

  lemma CalledNode(e: Env, s0: Snap, s: Snap, run: Run)
    requires Called(e, s0, s, run) && Belongs(s0.g, run)
    ensures Belongs(s.g, run)
  {
    CalledParts(e, s0, s, run);
    AdvancesParts(s0.g, s0.m, s0.log, s.g, s.m, s.log, s.calling + {run.provider.loc});
  }

  lemma SimpleRan(e: Env, s0: Snap, s: Snap, n: nat, run: Run, vs: seq<Value>)
    requires Going(e, s0) && n !in s0.m.values && run.who == SimpleRun(n) && Belongs(s0.g, run)
    requires Called(e, s0, s, run) && run.provider.fn(run.args) == Some(vs)
    ensures Moves(e, s0, s.(m := WithValues(s.m, n, vs), log := s.log + [run]), true)
  {
    CalledParts(e, s0, s, run);
    GoingParts(e, s0);
    GoingParts(e, s);
    CalledNode(e, s0, s, run);
    SimpleRunOk(e.start, s0.g, s0.m, s0.log, s.g, s.m, s.log, s.calling, n, run, vs);
    GoingWhole(e, s.(m := WithValues(s.m, n, vs), log := s.log + [run]));
    MovesWhole(e, s0, s.(m := WithValues(s.m, n, vs), log := s.log + [run]));
  }

  lemma ScopedRan(e: Env, s0: Snap, s: Snap, n: nat, key: Option<Module>, run: Run, vs: seq<Value>)
    requires Going(e, s0) && (n, key) !in s0.m.scopedValues && run.who == ScopedRun(n, key) && Belongs(s0.g, run)
    requires Called(e, s0, s, run) && run.provider.fn(run.args) == Some(vs)
    ensures Moves(e, s0, s.(m := WithScopedValues(s.m, n, key, vs), log := s.log + [run]), true)
  {
    CalledParts(e, s0, s, run);
    GoingParts(e, s0);
    GoingParts(e, s);
    CalledNode(e, s0, s, run);
    ScopedRunOk(e.start, s0.g, s0.m, s0.log, s.g, s.m, s.log, s.calling, n, key, run, vs);
    GoingWhole(e, s.(m := WithScopedValues(s.m, n, key, vs), log := s.log + [run]));
    MovesWhole(e, s0, s.(m := WithScopedValues(s.m, n, key, vs), log := s.log + [run]));
  }

  lemma RunFailed(e: Env, s0: Snap, s: Snap, run: Run)
    requires Going(e, s0) && run.who !in Ran(s0.log) && Belongs(s0.g, run)
    requires Called(e, s0, s, run) && run.provider.fn(run.args).None?
    ensures Moves(e, s0, s.(failed := Some(run)), false) && BlameAt(e, s.(failed := Some(run)), ProviderFailed)
  {
    CalledParts(e, s0, s, run);
    GoingParts(e, s0);
    GoingParts(e, s);
    CalledNode(e, s0, s, run);
    FailedOk(e.start, s0.g, s0.m, s0.log, s.g, s.m, s.log, s.calling, run);
    BlameProvider(e.ts, e.start, e.root, s.g, s.calling, s.stack);
    ReadyWhole(e, s.(failed := Some(run)));
    MovesError(e, s0, s.(failed := Some(run)));
  }

  /** A provider at a location that is being called already. */
  lemma CycleBlame(e: Env, s: Snap, who: Runner, p: Provider, key: Option<Module>)
    requires Going(e, s) && WantedAt(e, s, who) && Registered(s.g, who) == Some((p, key)) && p.loc in s.calling
    ensures BlameAt(e, s, Cyclic)
  {
    GoingParts(e, s);
    BlameCycle(e.ts, e.start, e.root, s.g, s.calling, s.stack, s.failed.Some?, who);
  }

  lemma NotYetRun(e: Env, s: Snap, n: nat, key: Option<Module>)
    requires Going(e, s)
    ensures n !in s.m.values ==> SimpleRun(n) !in Ran(s.log)
    ensures n in s.m.values ==> SimpleRun(n) in Ran(s.log)
    ensures (n, key) !in s.m.scopedValues ==> ScopedRun(n, key) !in Ran(s.log)
  {
    GoingParts(e, s);
    StateParts(e.start, s.g, s.m, s.log);
    var k: (nat, Option<Module>) := (n, key);
    assert k in s.m.scopedValues <==> ScopedRun(k.0, k.1) in Ran(s.log);
  }

  // ---------------------------------------------------------------------------
  // Invokers
  // ---------------------------------------------------------------------------

  ghost predicate HasRun(log: seq<Run>, who: Runner) {
    forall z: int {:trigger Unfold(z)} :: Guard(z) ==> exists w: int {:trigger Fold(w)} :: Fold(w) && who in Ran(log)
  }

  lemma HasRunParts(log: seq<Run>, who: Runner)
    requires HasRun(log, who)
    ensures who in Ran(log)
  {
    assert Unfold(0);
  }

  lemma HasRunWhole(log: seq<Run>, who: Runner)
    requires who in Ran(log)
    ensures HasRun(log, who)
  {
    assert Unfold(0) && Fold(0);
  }

  lemma HasRunStill(log: seq<Run>, log': seq<Run>, run: Run, who: Runner)
    requires log <= log' && HasRun(log, who)
    ensures HasRun(log' + [run], who)
  {
    HasRunParts(log, who);
    RanPrefix(log, log' + [run]);
    HasRunWhole(log' + [run], who);
  }

  /** Nothing is being called, and the root and the first `n` invokers have run. */
  ghost predicate Resting(e: Env, s: Snap, n: nat) {
    forall z: int {:trigger Unfold(z)} :: Guard(z) ==> exists w: int {:trigger Fold(w)} ::
      Fold(w) && Going(e, s) && s.stack == [] && HasRun(s.log, SimpleRun(e.root)) && InvokersRun(s.log, n)
  }

  lemma RestingParts(e: Env, s: Snap, n: nat)
    requires Resting(e, s, n)
    ensures Going(e, s) && s.stack == [] && HasRun(s.log, SimpleRun(e.root)) && InvokersRun(s.log, n)
  {
    assert Unfold(0);
  }

  lemma RestingWhole(e: Env, s: Snap, n: nat)
    requires Going(e, s) && s.stack == [] && HasRun(s.log, SimpleRun(e.root)) && InvokersRun(s.log, n)
    ensures Resting(e, s, n)
  {
    assert Unfold(0) && Fold(0);
  }

  lemma MovesInvokers(e: Env, s: Snap, s': Snap, n: nat)
    requires Moves(e, s, s', true) && InvokersRun(s.log, n)
    ensures InvokersRun(s'.log, n) && s.log <= s'.log
  {
    MovesParts(e, s, s', true);
    InvokersKept(s.g, s.m, s.log, s'.g, s'.m, s'.log, s.calling, n);
    AdvancesParts(s.g, s.m, s.log, s'.g, s'.m, s'.log, s.calling);
  }

  lemma InvokerNotYetRun(log: seq<Run>, i: nat)
    requires InvokersRun(log, i)
    ensures InvokerRun(i) !in Ran(log)
  {
    assert Unfold(0);
  }

  lemma InvokerRan(e: Env, s0: Snap, s: Snap, i: nat, run: Run)
    requires Going(e, s0) && InvokersRun(s0.log, i) && run.who == InvokerRun(i) && Belongs(s0.g, run)
    requires Called(e, s0, s, run) && run.provider.fn(run.args).Some?
    ensures Going(e, s.(log := s.log + [run])) && InvokersRun(s.log + [run], i + 1) && s0.log <= s.log
    ensures s.stack == s0.stack
  {
    CalledParts(e, s0, s, run);
    GoingParts(e, s);
    InvokersKept(s0.g, s0.m, s0.log, s.g, s.m, s.log, s.calling + {run.provider.loc}, i);
    AdvancesParts(s0.g, s0.m, s0.log, s.g, s.m, s.log, s.calling + {run.provider.loc});
    CalledNode(e, s0, s, run);
    InvokerRunOk(e.start, s.g, s.m, s.log, run);
    InvokersNext(s.log, run, i);
    GoingWhole(e, s.(log := s.log + [run]));
  }

  lemma RestingReady(e: Env, s: Snap, n: nat)
    requires Resting(e, s, n)
    ensures Ready(e, s) && s.g.invokers == e.start.invokers
  {
    RestingParts(e, s, n);
    GoingParts(e, s);
    GoingInvokers(e, s);
  }

  /** An invoker can be called next. */
  lemma RestingNext(e: Env, s: Snap, i: nat)
    requires Resting(e, s, i) && i < |e.start.invokers|
    ensures Going(e, s) && WantedAt(e, s, InvokerRun(i)) && InvokerRun(i) !in Ran(s.log)
    ensures var node := e.start.invokers[i];
            node.provider.loc in e.locs && Registered(s.g, InvokerRun(i)) == Some((node.provider, node.moduleKey))
  {
    RestingParts(e, s, i);
    InvokerNotYetRun(s.log, i);
    GoingInvokers(e, s);
    GoingNode(e, s, i);
    WantedOrigin(e.start, e.root, s.g, InvokerRun(i));
  }

  lemma RestingAgain(e: Env, s0: Snap, s: Snap, i: nat, run: Run)
    requires Resting(e, s0, i) && run.who == InvokerRun(i) && Belongs(s0.g, run)
    requires Called(e, s0, s, run) && run.provider.fn(run.args).Some?
    ensures Resting(e, s.(log := s.log + [run]), i + 1)
  {
    RestingParts(e, s0, i);
    InvokerRan(e, s0, s, i, run);
    var s' := s.(log := s.log + [run]);
    HasRunStill(s0.log, s.log, run, SimpleRun(e.root));
    RestingWhole(e, s', i + 1);
  }

  // ---------------------------------------------------------------------------
  // Values
  // ---------------------------------------------------------------------------

  /** A resolver's value is known and all runs that it needs have happened. */
  ghost predicate ResolvedAt(s: Snap, r: Resolver, key: Option<Module>, v: Value) {
    Resolved(s.g, s.m, s.log, r, key, v)
  }

  /** The value is kept for the next time the resolver is asked. */
  predicate Memoised(m: Memo, r: Resolver, key: Option<Module>, v: Value) {
    (r, key) in m.picked && m.picked[(r, key)] == v
  }

  lemma PickMoves(e: Env, s: Snap, r: Resolver, key: Option<Module>, v: Value)
    requires Going(e, s) && ValidResolver(s.g, r) && ResolvedAt(s, r, key, v)
    ensures var s' := s.(m := WithPick(s.m, r, key, v));
            Moves(e, s, s', true) && ResolvedAt(s', r, key, v) && Memoised(s'.m, r, key, v)
  {
    GoingParts(e, s);
    PickOk(e.start, s.g, s.m, s.log, r, key, v, s.calling);
    GoingWhole(e, s.(m := WithPick(s.m, r, key, v)));
    MovesWhole(e, s, s.(m := WithPick(s.m, r, key, v)));
  }

  lemma PickedBefore(e: Env, s: Snap, r: Resolver, key: Option<Module>)
    requires Going(e, s) && (r, key) in s.m.picked
    ensures ResolvedAt(s, r, key, s.m.picked[(r, key)])
  {
    GoingParts(e, s);
    PickedIsResolved(e.start, s.g, s.m, s.log, r, key);
  }

  lemma SimpleValue(e: Env, s: Snap, n: nat, i: nat, t: Type)
    requires Going(e, s) && n in s.m.values && ValidOutput(s.g, Output(n, i))
    ensures i < |s.m.values[n]| && ResolvedAt(s, Simple(n, i, t), None, s.m.values[n][i])
  {
    GoingParts(e, s);
    SimpleResolved(e.start, s.g, s.m, s.log, n, i, t);
  }

  lemma ScopedValue(e: Env, s: Snap, n: nat, i: nat, t: Type, key: Option<Module>)
    requires Going(e, s) && (n, key) in s.m.scopedValues && n < |s.g.scoped| && i < |s.g.scoped[n].outputs|
    ensures i < |s.m.scopedValues[(n, key)]| && ResolvedAt(s, Scoped(n, i, t), key, s.m.scopedValues[(n, key)][i])
  {
    GoingParts(e, s);
    ScopedResolved(e.start, s.g, s.m, s.log, n, i, t, key);
  }

  lemma InputFound(e: Env, s: Snap, s': Snap, input: Input, key: Option<Module>, r: Resolver, arg: Value)
    requires Going(e, s) && Moves(e, s, s', true) && ResolvedAt(s', r, key, arg)
    requires Lookup(s.g, input.typ, key) == Some(r)
    requires !input.ignored && input.typ != MODULE_KEY && input.typ != OWN_MODULE_KEY
    ensures InputNow(e.start, s'.g, s'.m, s'.log, input, key, Some(r), arg)
  {
    GoingParts(e, s);
    MovesParts(e, s, s', true);
    InputResolved(e.start, s.g, s.m, s.log, s'.g, s'.m, s'.log, s.calling, input, key, r, arg);
  }

  /** The first `i` outputs of a group, collected on the way from the state `s0`. */
  ghost predicate Collecting(e: Env, s0: Snap, s: Snap, t: Type, i: nat, res: seq<Value>) {
    forall z: int {:trigger Unfold(z)} :: Guard(z) ==> exists w: int {:trigger Fold(w)} ::
    && Fold(w) && Moves(e, s0, s, true) && t in s0.g.groups && t in s.g.groups && s.g.groups[t] == s0.g.groups[t]
    && i <= |s.g.groups[t]| && Collected(s.m, s.log, s.g.groups[t][..i], res)
  }

  lemma CollectingParts(e: Env, s0: Snap, s: Snap, t: Type, i: nat, res: seq<Value>)
    requires Collecting(e, s0, s, t, i, res)
    ensures Moves(e, s0, s, true) && t in s0.g.groups && t in s.g.groups && s.g.groups[t] == s0.g.groups[t]
    ensures i <= |s.g.groups[t]| && Collected(s.m, s.log, s.g.groups[t][..i], res)
    ensures Going(e, s) && s.calling == s0.calling
  {
    assert Unfold(0);
    MovesParts(e, s0, s, true);
  }

  lemma CollectStart(e: Env, s: Snap, t: Type)
    requires Going(e, s) && t in s.g.groups
    ensures Collecting(e, s, s, t, 0, [])
  {
    MovesStill(e, s);
    CollectedNone(s.m, s.log, s.g.groups[t]);
    assert Unfold(0) && Fold(0);
  }

  lemma CollectNext(e: Env, s0: Snap, s: Snap, s': Snap, t: Type, i: nat, res: seq<Value>, o: Output)
    requires Collecting(e, s0, s, t, i, res) && t in s.g.groups && i < |s.g.groups[t]| && Moves(e, s, s', true)
    requires o == s.g.groups[t][i] && o.node in s'.m.values
    ensures o.idx < |s'.m.values[o.node]| && Collecting(e, s0, s', t, i + 1, res + Spread(s'.m.values[o.node][o.idx]))
  {
    CollectingParts(e, s0, s, t, i, res);
    MovesThen(e, s0, s, s', true);
    MovesGroup(e, s, s', t);
    MovesParts(e, s, s', true);
    GoingOutput(e, s', t, i);
    GoingParts(e, s');
    CollectedNext(e.start, s.g, s.m, s.log, s'.g, s'.m, s'.log, s.calling, s.g.groups[t], i, res);
    assert Unfold(0) && Fold(0);
  }

  lemma CollectEnd(e: Env, s0: Snap, s: Snap, t: Type, c: Type, n: nat, res: seq<Value>)
    requires Collecting(e, s0, s, t, n, res) && t in s0.g.groups && n == |s0.g.groups[t]|
    ensures Moves(e, s0, s, true) && ResolvedAt(s, GroupSlice(t, c), None, List(res))
  {
    CollectingParts(e, s0, s, t, n, res);
    CollectedResolved(s.g, s.m, s.log, t, c, res);
  }

  /** All entries of a table but the pending ones, collected on the way from the state `s0`. */
  ghost predicate Tabulating(e: Env, s0: Snap, s: Snap, t: Type, pending: set<Module>, res: map<Module, Value>) {
    forall z: int {:trigger Unfold(z)} :: Guard(z) ==> exists w: int {:trigger Fold(w)} ::
    && Fold(w) && Moves(e, s0, s, true)
    && t in s0.g.perModule && t in s.g.perModule && s.g.perModule[t] == s0.g.perModule[t]
    && Tabulated(s.m, s.log, s.g.perModule[t], pending, res)
  }

  lemma TabulatingParts(e: Env, s0: Snap, s: Snap, t: Type, pending: set<Module>, res: map<Module, Value>)
    requires Tabulating(e, s0, s, t, pending, res)
    ensures Moves(e, s0, s, true) && t in s0.g.perModule && t in s.g.perModule && s.g.perModule[t] == s0.g.perModule[t]
    ensures Tabulated(s.m, s.log, s.g.perModule[t], pending, res) && pending <= s.g.perModule[t].Keys
    ensures Going(e, s) && s.calling == s0.calling
  {
    assert Unfold(0);
    MovesParts(e, s0, s, true);
    TabulatedKeys(s.m, s.log, s.g.perModule[t], pending, res);
  }

  lemma TabulateStart(e: Env, s: Snap, t: Type)
    requires Going(e, s) && t in s.g.perModule
    ensures Tabulating(e, s, s, t, s.g.perModule[t].Keys, map[])
  {
    MovesStill(e, s);
    TabulatedNone(s.m, s.log, s.g.perModule[t]);
    assert Unfold(0) && Fold(0);
  }

  lemma TabulateNext(e: Env, s0: Snap, s: Snap, s': Snap, t: Type, pending: set<Module>, res: map<Module, Value>,
                     k: Module, o: Output)
    requires Tabulating(e, s0, s, t, pending, res) && t in s.g.perModule && k in pending && k in s.g.perModule[t]
    requires Moves(e, s, s', true) && o == s.g.perModule[t][k] && o.node in s'.m.values
    ensures o.idx < |s'.m.values[o.node]|
    ensures Tabulating(e, s0, s', t, pending - {k}, res[k := s'.m.values[o.node][o.idx]])
  {
    TabulatingParts(e, s0, s, t, pending, res);
    MovesThen(e, s0, s, s', true);
    MovesGroup(e, s, s', t);
    MovesParts(e, s, s', true);
    GoingEntry(e, s', t, k);
    GoingParts(e, s');
    TabulatedNext(e.start, s.g, s.m, s.log, s'.g, s'.m, s'.log, s.calling, s.g.perModule[t], pending, res, k);
    assert Unfold(0) && Fold(0);
  }

  lemma TabulateEnd(e: Env, s0: Snap, s: Snap, t: Type, c: Type, res: map<Module, Value>)
    requires Tabulating(e, s0, s, t, {}, res)
    ensures Moves(e, s0, s, true) && ResolvedAt(s, PerModuleMap(t, c), None, Table(res))
  {
    TabulatingParts(e, s0, s, t, {}, res);
    TabulatedResolved(s.g, s.m, s.log, t, c, res);
  }
}
