/** The container (`depinject/container.go`) and its resolvers. */
module Container {
  import opened ProviderGraph
  import opened Resolution
  import opened Registration
  import opened Chains
  import opened Arguments
  import opened Steps
  import opened Hiding
  import opened Options

  /** A provider that starts being called leaves fewer that are not. */
  lemma Narrower(locs: set<Location>, calling: set<Location>, loc: Location)
    requires loc in locs && loc !in calling
    ensures |locs - (calling + {loc})| < |locs - calling|
  {
    assert locs - calling == (locs - (calling + {loc})) + {loc};
  }

  class Container {
    const ts: TypeSystem
    var g: Graph
    var memo: Memo
    var callerMap: set<Location>
    ghost var log: seq<Run>
    ghost var failed: Option<Run>
    ghost var stack: seq<Runner>

    constructor (ts: TypeSystem, bindings: map<(Type, Option<Module>), Type>)
      requires ts.Lawful()
      ensures this.ts == ts && g == Graph(map[], bindings, [], [], map[], map[], [])
      ensures Contents(ts, g) && Untouched()
    {
      this.ts := ts;
      g := Graph(map[], bindings, [], [], map[], map[], []);
      memo, log, failed, callerMap, stack := Memo(map[], map[], map[]), [], None, {}, [];
      EmptyContents(ts, bindings);
    }

    /** Nothing has been resolved yet. */
    ghost predicate Untouched()
      reads this
    {
      memo == Memo(map[], map[], map[]) && log == [] && failed.None? && callerMap == {} && stack == []
    }

    // -------------------------------------------------------------------------
    // Finding resolvers
    // -------------------------------------------------------------------------

    /** Explicit bindings first, then registered types, then groups, then implicit interfaces. */
    method GetResolver(typ: Type, key: Option<Module>) returns (r: Outcome<Option<Resolver>>)
      requires Contents(ts, g)
      modifies this`g
      ensures (typ, key) in old(g).bindings ==> g == old(g) && r == Bound(g, g.bindings[(typ, key)])
      ensures (typ, key) !in old(g).bindings && (typ, None) in old(g).bindings ==>
                g == old(g) && r == Bound(g, g.bindings[(typ, None)])
      ensures (typ, key) !in old(g).bindings && (typ, None) !in old(g).bindings && typ in old(g).resolvers ==>
                g == old(g) && r == Ok(Some(g.resolvers[typ]))
      ensures Finds(ts, old(g), typ, key, g, r)
      ensures Contents(ts, g) && Grows(old(g), g) && Accumulates(ts, old(g), g)
      ensures r.Ok? ==> r.value == Lookup(g, typ, key)
    {
      AccumulatesStill(ts, g);
      var pref := Binding(g, typ, key);
      if pref.Some? {
        if pref.value in g.resolvers {
          return Ok(Some(g.resolvers[pref.value]));
        }
        return Err(NoTypeForBinding);
      }
      if typ in g.resolvers {
        return Ok(Some(g.resolvers[typ]));
      }
      r := NewResolver(typ);
    }

    /** Registers a collected type or an interface when it is first met. */
    method NewResolver(typ: Type) returns (r: Outcome<Option<Resolver>>)
      requires Contents(ts, g) && typ !in g.resolvers
      modifies this`g
      ensures Contents(ts, g) && Grows(old(g), g) && Accumulates(ts, old(g), g)
      ensures !Plain(ts, typ) ==>
                g == WithGroups(ts, old(g), typ) && typ in g.resolvers && r == Ok(Some(g.resolvers[typ]))
      ensures Plain(ts, typ) && ts.isInterface(typ) ==> Binds(ts, old(g), typ, g, r)
      ensures Plain(ts, typ) && !ts.isInterface(typ) ==> g == old(g) && r == Ok(None)
      ensures r.Ok? ==> r.value == if typ in g.resolvers then Some(g.resolvers[typ]) else None
      ensures g.bindings == old(g).bindings
    {
      AccumulatesStill(ts, g);
      var elem := ts.Elem(typ);
      if ts.isMany(elem) || ts.isOnePer(elem) {
        GroupsOk(ts, g, typ);
        g := WithGroups(ts, g, typ);
        return Ok(Some(g.resolvers[typ]));
      }
      if ts.isInterface(typ) {
        r := BindInterface(typ);
        return;
      }
      return Ok(None);
    }

    /** The one concrete type with a resolver that implements an interface, if there is just one. */
    method BindInterface(typ: Type) returns (r: Outcome<Option<Resolver>>)
      requires Contents(ts, g) && typ !in g.resolvers && Plain(ts, typ) && ts.isInterface(typ)
      modifies this`g
      ensures Binds(ts, old(g), typ, g, r)
      ensures Contents(ts, g) && Grows(old(g), g) && Accumulates(ts, old(g), g)
      ensures r.Ok? ==> r.value == if typ in g.resolvers then Some(g.resolvers[typ]) else None
    {
      AccumulatesStill(ts, g);
      var matches := Implementations(ts, g, typ);
      if |matches| == 1 {
        var t :| t in matches;
        OnlyElement(matches, t);
        BindsOne(ts, g, typ, t);
        if t in g.resolvers {
          InterfaceOk(ts, g, typ, t);
          g := WithResolver(g, typ, g.resolvers[t]);
          return Ok(Some(g.resolvers[typ]));
        }
        return Ok(None);
      }
      BindsNotOne(ts, g, typ);
      return if |matches| > 1 then Err(Ambiguous) else Ok(None);
    }

    // -------------------------------------------------------------------------
    // Resolving
    // -------------------------------------------------------------------------

    ghost function Now(): Snap
      reads this
    {
      Snap(g, memo, log, callerMap, failed, stack)
    }

    /** `simpleProvider.resolveValues`: calls the provider on the first use only. */
    method ResolveValues(ghost e: Env, n: nat) returns (r: Outcome<seq<Value>>)
      requires e.ts == ts && Going(e, Now()) && n < |g.simple| && WantedAt(e, Now(), SimpleRun(n))
      modifies this`g, this`memo, this`callerMap, this`log, this`failed, this`stack
      ensures Moves(e, old(Now()), Now(), r.Ok?) && (r.Err? ==> BlameAt(e, Now(), r.error))
      ensures r.Ok? ==> n in memo.values && memo.values[n] == r.value
      decreases |e.locs - callerMap|, 2
    {
      if n in memo.values {
        MovesStill(e, Now());
        return Ok(memo.values[n]);
      }
      r := RunSimple(e, n);
    }

    method RunSimple(ghost e: Env, n: nat) returns (r: Outcome<seq<Value>>)
      requires e.ts == ts && Going(e, Now()) && n < |g.simple| && n !in memo.values && WantedAt(e, Now(), SimpleRun(n))
      modifies this`g, this`memo, this`callerMap, this`log, this`failed, this`stack
      ensures Moves(e, old(Now()), Now(), r.Ok?) && (r.Err? ==> BlameAt(e, Now(), r.error))
      ensures r.Ok? ==> n in memo.values && memo.values[n] == r.value
      decreases |e.locs - callerMap|, 1
    {
      GoingNode(e, Now(), n);
      NotYetRun(e, Now(), n, None);
      ghost var run, ran;
      r, run, ran := Call(e, g.simple[n].provider, g.simple[n].moduleKey, SimpleRun(n));
      if r.Ok? {
        KeepValues(e, old(Now()), n, run, r.value);
      } else if ran {
        Fail(e, old(Now()), run);
      }
    }

    method KeepValues(ghost e: Env, ghost s0: Snap, n: nat, ghost run: Run, vs: seq<Value>)
      requires Going(e, s0) && n !in s0.m.values && run.who == SimpleRun(n) && Belongs(s0.g, run)
      requires Called(e, s0, Now(), run) && run.provider.fn(run.args) == Some(vs)
      modifies this`memo, this`log
      ensures Moves(e, s0, Now(), true) && n in memo.values && memo.values[n] == vs
    {
      SimpleRan(e, s0, Now(), n, run, vs);
      memo := WithValues(memo, n, vs);
      log := log + [run];
    }

    ghost method Fail(e: Env, s0: Snap, run: Run)
      requires Going(e, s0) && run.who !in Ran(s0.log) && Belongs(s0.g, run)
      requires Called(e, s0, Now(), run) && run.provider.fn(run.args).None?
      modifies this`failed
      ensures Moves(e, s0, Now(), false) && BlameAt(e, Now(), ProviderFailed)
    {
      RunFailed(e, s0, Now(), run);
      failed := Some(run);
    }

    /**
     * Resolves the inputs of a provider in order and calls it; a provider that is being called is
     * a cycle. `ran` says whether the provider's function was called.
     */
    method Call(ghost e: Env, p: Provider, key: Option<Module>, ghost who: Runner)
      returns (r: Outcome<seq<Value>>, ghost run: Run, ghost ran: bool)
      requires e.ts == ts && Going(e, Now()) && p.loc in e.locs
      requires WantedAt(e, Now(), who) && Registered(g, who) == Some((p, key))
      modifies this`g, this`memo, this`callerMap, this`log, this`failed, this`stack
      ensures run.who == who && run.provider == p && run.moduleKey == key
      ensures p.loc in old(callerMap) ==> r == Err(Cyclic) && !ran
      ensures ran ==> Called(e, old(Now()), Now(), run)
      ensures ran ==>
                p.fn(run.args) == (if r.Ok? then Some(r.value) else None) && (r.Err? ==> r.error == ProviderFailed)
      ensures !ran ==> r.Err? && Moves(e, old(Now()), Now(), false) && BlameAt(e, Now(), r.error)
      decreases |e.locs - callerMap|, 0
    {
      run, ran := Run(who, p, key, [], []), false;
      if p.loc in callerMap {
        MovesStill(e, Now());
        CycleBlame(e, Now(), who, p, key);
        return Err(Cyclic), run, ran;
      }
      Narrower(e.locs, callerMap, p.loc);
      Enter(e, p, run);
      var args;
      args, run := Arguments(e, old(Now()), p, key, run);
      if args.Err? {
        return Err(args.error), run, ran;
      }
      Leave(e, old(Now()), p, run);
      var values := p.fn(args.value);
      ran := true;
      return if values.None? then Err(ProviderFailed) else Ok(values.value), run, ran;
    }

    method Enter(ghost e: Env, p: Provider, ghost run: Run)
      requires Going(e, Now()) && WantedAt(e, Now(), run.who) && run.used == [] && run.args == []
      requires run.provider == p && Registered(g, run.who) == Some((p, run.moduleKey))
      modifies this`callerMap, this`stack
      ensures Calling(e, old(Now()), Now(), run) && callerMap == old(callerMap) + {p.loc}
    {
      CallStart(e, Now(), run);
      callerMap, stack := callerMap + {p.loc}, stack + [run.who];
    }

    method Leave(ghost e: Env, ghost s0: Snap, p: Provider, ghost run: Run)
      requires Going(e, s0) && Calling(e, s0, Now(), run) && |run.args| == |p.inputs|
      requires run.provider == p && p.loc !in s0.calling
      modifies this`callerMap, this`stack
      ensures Called(e, s0, Now(), run)
    {
      CallingParts(e, s0, Now(), run);
      CallEnd(e, s0, Now(), run);
      callerMap, stack := callerMap - {p.loc}, s0.stack;
      assert callerMap == s0.calling;
    }

    /** Resolves the inputs of a provider, which has been entered as being called, in order. */
    method Arguments(ghost e: Env, ghost s0: Snap, p: Provider, key: Option<Module>, ghost called: Run)
      returns (r: Outcome<seq<Value>>, ghost run: Run)
      requires e.ts == ts && Calling(e, s0, Now(), called) && callerMap == s0.calling + {p.loc}
      requires called == Run(called.who, p, key, [], [])
      modifies this`g, this`memo, this`callerMap, this`log, this`failed, this`stack
      ensures run.who == called.who && run.provider == p && run.moduleKey == key
      ensures r.Ok? ==> Calling(e, s0, Now(), run) && callerMap == s0.calling + {p.loc}
      ensures r.Ok? ==> run.args == r.value && |r.value| == |p.inputs|
      ensures r.Err? ==> Moves(e, s0, Now(), false) && BlameAt(e, Now(), r.error)
      decreases |e.locs - callerMap|, 10
    {
      var args: seq<Value> := [];
      run := called;
      var i := 0;
      while i < |p.inputs|
        invariant 0 <= i <= |p.inputs| && |args| == i && run == Run(called.who, p, key, run.used, args)
        invariant Calling(e, s0, Now(), run) && callerMap == s0.calling + {p.loc}
      {
        ghost var s := Now();
        CallingParts(e, s0, s, run);
        CallAsks(e, s0, s, run, i);
        var v, u := Resolve(e, p.inputs[i], key);
        MovesParts(e, s, Now(), v.Ok?);
        if v.Err? {
          MovesError(e, s0, Now());
          return Err(v.error), run;
        }
        CallNext(e, s0, s, Now(), run, u, v.value);
        args := args + [v.value];
        run := Run(called.who, p, key, run.used + [u], args);
        i := i + 1;
      }
      return Ok(args), run;
    }

    /** Resolves one input of a provider that is called on behalf of a module. */
    method Resolve(ghost e: Env, input: Input, key: Option<Module>) returns (r: Outcome<Value>,
                   ghost used: Option<Resolver>)
      requires e.ts == ts && Going(e, Now()) && Asked(g, stack, input, key)
      modifies this`g, this`memo, this`callerMap, this`log, this`failed, this`stack
      ensures Moves(e, old(Now()), Now(), r.Ok?) && (r.Err? ==> BlameAt(e, Now(), r.error))
      ensures r.Ok? ==> InputNow(e.start, g, memo, log, input, key, used, r.value)
      decreases |e.locs - callerMap|, 9
    {
      used := None;
      MovesStill(e, Now());
      if input.ignored {
        InputUnresolved(e.start, g, memo, log, input, key, ZeroOf(input.typ));
        return Ok(ZeroOf(input.typ)), used;
      }
      if input.typ == MODULE_KEY || input.typ == OWN_MODULE_KEY {
        if key.None? {
          KeyBlame(e, Now(), input);
          return Err(OutsideModule), used;
        }
        InputUnresolved(e.start, g, memo, log, input, key, KeyOf(key.value));
        return Ok(KeyOf(key.value)), used;
      }
      r, used := ResolveType(e, input, key);
    }

    method ResolveType(ghost e: Env, input: Input, key: Option<Module>) returns (r: Outcome<Value>,
                       ghost used: Option<Resolver>)
      requires e.ts == ts && Going(e, Now()) && Asked(g, stack, input, key)
      requires !input.ignored && input.typ != MODULE_KEY && input.typ != OWN_MODULE_KEY
      modifies this`g, this`memo, this`callerMap, this`log, this`failed, this`stack
      ensures Moves(e, old(Now()), Now(), r.Ok?) && (r.Err? ==> BlameAt(e, Now(), r.error))
      ensures r.Ok? ==> InputNow(e.start, g, memo, log, input, key, used, r.value)
      decreases |e.locs - callerMap|, 8
    {
      used := None;
      var vr := FindResolver(e, input, key);
      MovesParts(e, old(Now()), Now(), !IsForElements(vr));
      if vr.Err? {
        return Err(vr.error), used;
      }
      if IsForElements(vr) {
        return Err(NotAnInput), used;
      }
      if vr.value.None? {
        if input.optional {
          InputUnresolved(e.start, g, memo, log, input, key, ZeroOf(input.typ));
          return Ok(ZeroOf(input.typ)), used;
        }
        return Err(Unresolved), used;
      }
      ghost var s := Now();
      used := vr.value;
      r := ResolveWith(e, vr.value.value, key);
      MovesThen(e, old(Now()), s, Now(), r.Ok?);
      if r.Ok? {
        InputFound(e, s, Now(), input, key, used.value, r.value);
      }
    }

    /** `GetResolver` during resolution. */
    method FindResolver(ghost e: Env, input: Input, key: Option<Module>) returns (r: Outcome<Option<Resolver>>)
      requires e.ts == ts && Going(e, Now()) && Asked(g, stack, input, key)
      requires !input.ignored && input.typ != MODULE_KEY && input.typ != OWN_MODULE_KEY
      modifies this`g
      ensures Moves(e, old(Now()), Now(), !IsForElements(r))
      ensures r.Ok? ==> r.value == Lookup(g, input.typ, key)
      ensures r.Ok? && r.value.Some? ==> ValidResolver(g, r.value.value) && WantedAllAt(e, Now(), r.value.value, key)
      ensures r.Ok? && r.value.None? ==> Lookup(e.start, input.typ, key).None?
      ensures r.Err? ==> BlameAt(e, Now(), r.error)
      ensures r == Ok(None) && !input.optional ==> BlameAt(e, Now(), Unresolved)
      ensures IsForElements(r) ==> BlameAt(e, Now(), NotAnInput)
    {
      GoingParts(e, Now());
      r := GetResolver(input.typ, key);
      FindsUndisturbed(ts, old(g), input.typ, key, g, r);
      FindMoves(e, old(Now()), g, input.typ, key);
      FindBlame(e, old(Now()), g, input, key, r);
      MovesParts(e, old(Now()), Now(), Undisturbed(old(g), g));
    }

    /** The `resolve` methods of the resolvers. */
    method ResolveWith(ghost e: Env, vr: Resolver, key: Option<Module>) returns (r: Outcome<Value>)
      requires e.ts == ts && Going(e, Now()) && ValidResolver(g, vr) && !ForElements(vr)
      requires WantedAllAt(e, Now(), vr, key)
      modifies this`g, this`memo, this`callerMap, this`log, this`failed, this`stack
      ensures Moves(e, old(Now()), Now(), r.Ok?) && (r.Err? ==> BlameAt(e, Now(), r.error))
      ensures r.Ok? ==> ResolvedAt(Now(), vr, key, r.value)
      decreases |e.locs - callerMap|, 7
    {
      if vr.Supplied? {
        MovesStill(e, Now());
        SuppliedResolved(g, memo, log, vr.value, vr.typ, key);
        r := Ok(vr.value);
      } else if vr.Scoped? {
        r := ResolveScoped(e, vr, key);
      } else if vr.Simple? {
        r := ResolveSimple(e, vr, key);
      } else {
        WantedByAll(e.start, e.root, g, stack, vr, key);
        r := ResolveCollection(e, vr, key);
      }
    }

    /** Keeps the value of a resolver for the next time. */
    method Remember(ghost e: Env, vr: Resolver, key: Option<Module>, v: Value)
      requires e.ts == ts && Going(e, Now()) && ValidResolver(g, vr) && ResolvedAt(Now(), vr, key, v)
      modifies this`memo
      ensures Moves(e, old(Now()), Now(), true)
      ensures ResolvedAt(Now(), vr, key, v) && Memoised(memo, vr, key, v)
    {
      PickMoves(e, Now(), vr, key, v);
      memo := WithPick(memo, vr, key, v);
    }

    /** Memoised for all callers alike. */
    method ResolveSimple(ghost e: Env, vr: Resolver, ghost key: Option<Module>) returns (r: Outcome<Value>)
      requires e.ts == ts && Going(e, Now()) && ValidResolver(g, vr) && vr.Simple? && WantedAllAt(e, Now(), vr, key)
      modifies this`g, this`memo, this`callerMap, this`log, this`failed, this`stack
      ensures Moves(e, old(Now()), Now(), r.Ok?) && (r.Err? ==> BlameAt(e, Now(), r.error))
      ensures r.Ok? ==> ResolvedAt(Now(), vr, key, r.value) && Memoised(memo, vr, None, r.value)
      decreases |e.locs - callerMap|, 4
    {
      if (vr, None) in memo.picked {
        MovesStill(e, Now());
        PickedBefore(e, Now(), vr, None);
        AnyKey(Now(), vr, key, memo.picked[(vr, None)]);
        return Ok(memo.picked[(vr, None)]);
      }
      WantedOne(e.start, e.root, g, stack, vr, key, SimpleRun(vr.node));
      var values :- ResolveValues(e, vr.node);
      ghost var s := Now();
      MovesNodes(e, old(Now()), s, vr);
      SimpleValue(e, s, vr.node, vr.idx, vr.typ);
      Remember(e, vr, None, values[vr.idx]);
      MovesThen(e, old(Now()), s, Now(), true);
      AnyKey(Now(), vr, key, values[vr.idx]);
      return Ok(values[vr.idx]);
    }

    /** Memoised for each module on whose behalf the provider is called. */
    method ResolveScoped(ghost e: Env, vr: Resolver, key: Option<Module>) returns (r: Outcome<Value>)
      requires e.ts == ts && Going(e, Now()) && ValidResolver(g, vr) && vr.Scoped? && WantedAllAt(e, Now(), vr, key)
      modifies this`g, this`memo, this`callerMap, this`log, this`failed, this`stack
      ensures Moves(e, old(Now()), Now(), r.Ok?) && (r.Err? ==> BlameAt(e, Now(), r.error))
      ensures r.Ok? ==> ResolvedAt(Now(), vr, key, r.value) && Memoised(memo, vr, key, r.value)
      decreases |e.locs - callerMap|, 4
    {
      if (vr, key) in memo.picked {
        MovesStill(e, Now());
        PickedBefore(e, Now(), vr, key);
        return Ok(memo.picked[(vr, key)]);
      }
      WantedOne(e.start, e.root, g, stack, vr, key, ScopedRun(vr.node, key));
      var values :- ScopedValues(e, vr.node, key);
      ghost var s := Now();
      MovesNodes(e, old(Now()), s, vr);
      ScopedValue(e, s, vr.node, vr.idx, vr.typ, key);
      Remember(e, vr, key, values[vr.idx]);
      MovesThen(e, old(Now()), s, Now(), true);
      return Ok(values[vr.idx]);
    }

    method ScopedValues(ghost e: Env, n: nat, key: Option<Module>) returns (r: Outcome<seq<Value>>)
      requires e.ts == ts && Going(e, Now()) && n < |g.scoped| && WantedAt(e, Now(), ScopedRun(n, key))
      modifies this`g, this`memo, this`callerMap, this`log, this`failed, this`stack
      ensures Moves(e, old(Now()), Now(), r.Ok?) && (r.Err? ==> BlameAt(e, Now(), r.error))
      ensures r.Ok? ==> (n, key) in memo.scopedValues && memo.scopedValues[(n, key)] == r.value
      decreases |e.locs - callerMap|, 2
    {
      if (n, key) in memo.scopedValues {
        MovesStill(e, Now());
        return Ok(memo.scopedValues[(n, key)]);
      }
      r := RunScoped(e, n, key);
    }

    method RunScoped(ghost e: Env, n: nat, key: Option<Module>) returns (r: Outcome<seq<Value>>)
      requires e.ts == ts && Going(e, Now()) && n < |g.scoped| && (n, key) !in memo.scopedValues
      requires WantedAt(e, Now(), ScopedRun(n, key))
      modifies this`g, this`memo, this`callerMap, this`log, this`failed, this`stack
      ensures Moves(e, old(Now()), Now(), r.Ok?) && (r.Err? ==> BlameAt(e, Now(), r.error))
      ensures r.Ok? ==> (n, key) in memo.scopedValues && memo.scopedValues[(n, key)] == r.value
      decreases |e.locs - callerMap|, 1
    {
      GoingNode(e, Now(), n);
      NotYetRun(e, Now(), n, key);
      ghost var run, ran;
      r, run, ran := Call(e, g.scoped[n], key, ScopedRun(n, key));
      if r.Ok? {
        KeepScopedValues(e, old(Now()), n, key, run, r.value);
      } else if ran {
        Fail(e, old(Now()), run);
      }
    }

    method KeepScopedValues(ghost e: Env, ghost s0: Snap, n: nat, key: Option<Module>, ghost run: Run, vs: seq<Value>)
      requires Going(e, s0) && (n, key) !in s0.m.scopedValues && run.who == ScopedRun(n, key) && Belongs(s0.g, run)
      requires Called(e, s0, Now(), run) && run.provider.fn(run.args) == Some(vs)
      modifies this`memo, this`log
      ensures Moves(e, s0, Now(), true) && (n, key) in memo.scopedValues && memo.scopedValues[(n, key)] == vs
    {
      ScopedRan(e, s0, Now(), n, key, run, vs);
      memo := WithScopedValues(memo, n, key, vs);
      log := log + [run];
    }

    /** A many-per-container or one-per-module collection is built on its first use. */
    method ResolveCollection(ghost e: Env, vr: Resolver, ghost key: Option<Module>) returns (r: Outcome<Value>)
      requires e.ts == ts && Going(e, Now()) && ValidResolver(g, vr) && (vr.GroupSlice? || vr.PerModuleMap?)
      requires WantedAllAt(e, Now(), vr, None)
      modifies this`g, this`memo, this`callerMap, this`log, this`failed, this`stack
      ensures Moves(e, old(Now()), Now(), r.Ok?) && (r.Err? ==> BlameAt(e, Now(), r.error))
      ensures r.Ok? ==> ResolvedAt(Now(), vr, key, r.value) && Memoised(memo, vr, None, r.value)
      decreases |e.locs - callerMap|, 6
    {
      if (vr, None) in memo.picked {
        MovesStill(e, Now());
        PickedBefore(e, Now(), vr, None);
        AnyKey(Now(), vr, key, memo.picked[(vr, None)]);
        return Ok(memo.picked[(vr, None)]);
      }
      var v :- Collect(e, vr);
      ghost var s := Now();
      MovesNodes(e, old(Now()), s, vr);
      Remember(e, vr, None, v);
      MovesThen(e, old(Now()), s, Now(), true);
      AnyKey(Now(), vr, key, v);
      return Ok(v);
    }

    method Collect(ghost e: Env, vr: Resolver) returns (r: Outcome<Value>)
      requires e.ts == ts && Going(e, Now()) && ValidResolver(g, vr) && (vr.GroupSlice? || vr.PerModuleMap?)
      requires WantedAllAt(e, Now(), vr, None)
      modifies this`g, this`memo, this`callerMap, this`log, this`failed, this`stack
      ensures Moves(e, old(Now()), Now(), r.Ok?) && (r.Err? ==> BlameAt(e, Now(), r.error))
      ensures r.Ok? ==> ResolvedAt(Now(), vr, None, r.value)
      decreases |e.locs - callerMap|, 5
    {
      if vr.GroupSlice? {
        r := CollectSlice(e, vr.elem, vr.typ);
      } else {
        r := CollectTable(e, vr.elem, vr.typ);
      }
    }

    /** Collects the values of a many-per-container type in the order of registration. */
    method CollectSlice(ghost e: Env, elem: Type, t: Type) returns (r: Outcome<Value>)
      requires e.ts == ts && Going(e, Now()) && elem in g.groups && WantedAllAt(e, Now(), GroupSlice(elem, t), None)
      modifies this`g, this`memo, this`callerMap, this`log, this`failed, this`stack
      ensures Moves(e, old(Now()), Now(), r.Ok?) && (r.Err? ==> BlameAt(e, Now(), r.error))
      ensures r.Ok? ==> ResolvedAt(Now(), GroupSlice(elem, t), None, r.value)
      decreases |e.locs - callerMap|, 4
    {
      var outputs := g.groups[elem];
      var res: seq<Value> := [];
      CollectStart(e, Now(), elem);
      var i := 0;
      while i < |outputs|
        invariant 0 <= i <= |outputs| && callerMap == old(callerMap)
        invariant Collecting(e, old(Now()), Now(), elem, i, res)
      {
        WantedMember(e.start, e.root, old(g), old(stack), elem, t, i);
        var v := CollectMember(e, old(Now()), elem, outputs[i], i, res);
        if v.Err? {
          return Err(v.error);
        }
        res := res + Spread(v.value);
        i := i + 1;
      }
      CollectEnd(e, old(Now()), Now(), elem, t, |outputs|, res);
      return Ok(List(res));
    }

    method CollectMember(ghost e: Env, ghost s0: Snap, ghost elem: Type, o: Output, ghost i: nat, ghost res: seq<Value>)
      returns (r: Outcome<Value>)
      requires e.ts == ts && Collecting(e, s0, Now(), elem, i, res) && callerMap == s0.calling
      requires elem in s0.g.groups && i < |s0.g.groups[elem]| && o == s0.g.groups[elem][i]
      requires Going(e, s0) && WantedAt(e, s0, SimpleRun(o.node))
      modifies this`g, this`memo, this`callerMap, this`log, this`failed, this`stack
      ensures r.Ok? ==> Collecting(e, s0, Now(), elem, i + 1, res + Spread(r.value)) && callerMap == s0.calling
      ensures r.Err? ==> Moves(e, s0, Now(), false) && BlameAt(e, Now(), r.error)
      decreases |e.locs - callerMap|, 3
    {
      CollectingParts(e, s0, Now(), elem, i, res);
      GoingOutput(e, Now(), elem, i);
      MovesWanted(e, s0, Now(), SimpleRun(o.node));
      var values := ResolveValues(e, o.node);
      MovesParts(e, old(Now()), Now(), values.Ok?);
      if values.Err? {
        MovesError(e, s0, Now());
        return Err(values.error);
      }
      CollectNext(e, s0, old(Now()), Now(), elem, i, res, o);
      return Ok(values.value[o.idx]);
    }

    /** Collects the values of a one-per-module type by the name of the module. */
    method CollectTable(ghost e: Env, elem: Type, t: Type) returns (r: Outcome<Value>)
      requires e.ts == ts && Going(e, Now()) && elem in g.perModule
      requires WantedAllAt(e, Now(), PerModuleMap(elem, t), None)
      modifies this`g, this`memo, this`callerMap, this`log, this`failed, this`stack
      ensures Moves(e, old(Now()), Now(), r.Ok?) && (r.Err? ==> BlameAt(e, Now(), r.error))
      ensures r.Ok? ==> ResolvedAt(Now(), PerModuleMap(elem, t), None, r.value)
      decreases |e.locs - callerMap|, 4
    {
      var outputs := g.perModule[elem];
      var res: map<Module, Value> := map[];
      var pending := outputs.Keys;
      TabulateStart(e, Now(), elem);
      while pending != {}
        invariant pending <= outputs.Keys && callerMap == old(callerMap)
        invariant Tabulating(e, old(Now()), Now(), elem, pending, res)
        decreases pending
      {
        var k :| k in pending;
        WantedEntry(e.start, e.root, old(g), old(stack), elem, t, k);
        var v := CollectEntry(e, old(Now()), elem, outputs[k], k, pending, res);
        if v.Err? {
          return Err(v.error);
        }
        pending, res := pending - {k}, res[k := v.value];
      }
      TabulateEnd(e, old(Now()), Now(), elem, t, res);
      return Ok(Table(res));
    }

    method CollectEntry(ghost e: Env, ghost s0: Snap, ghost elem: Type, o: Output, ghost k: Module,
                        ghost pending: set<Module>,
                        ghost res: map<Module, Value>)
      returns (r: Outcome<Value>)
      requires e.ts == ts && Tabulating(e, s0, Now(), elem, pending, res) && callerMap == s0.calling
      requires elem in s0.g.perModule && k in s0.g.perModule[elem] && o == s0.g.perModule[elem][k] && k in pending
      requires Going(e, s0) && WantedAt(e, s0, SimpleRun(o.node))
      modifies this`g, this`memo, this`callerMap, this`log, this`failed, this`stack
      ensures r.Ok? ==> Tabulating(e, s0, Now(), elem, pending - {k}, res[k := r.value]) && callerMap == s0.calling
      ensures r.Err? ==> Moves(e, s0, Now(), false) && BlameAt(e, Now(), r.error)
      decreases |e.locs - callerMap|, 3
    {
      TabulatingParts(e, s0, Now(), elem, pending, res);
      GoingEntry(e, Now(), elem, k);
      MovesWanted(e, s0, Now(), SimpleRun(o.node));
      var values := ResolveValues(e, o.node);
      MovesParts(e, old(Now()), Now(), values.Ok?);
      if values.Err? {
        MovesError(e, s0, Now());
        return Err(values.error);
      }
      TabulateNext(e, s0, old(Now()), Now(), elem, pending, res, k, o);
      return Ok(values.value[o.idx]);
    }

    // -------------------------------------------------------------------------
    // Registering
    // -------------------------------------------------------------------------

    /** Registers a provider: as a module-scoped one if it asks for a module key, else as a simple one. */
    method AddNode(p: Provider, key: Option<Module>) returns (r: Outcome<NodeRef>)
      requires Contents(ts, g) && WellTyped(p)
      modifies this`g
      ensures Contents(ts, g) && Accumulates(ts, old(g), g)
      ensures r.Ok? ==> NoneCollected(ts, p.inputs)
      ensures r.Ok? ==> (r.value.ScopedNode? <==> Asks(p, MODULE_KEY))
      ensures r.Ok? && r.value.SimpleNode? ==>
                r.value.n == |old(g).simple| && g.simple == old(g).simple + [Node(p, key)] && g.scoped == old(g).scoped
      ensures r.Ok? && r.value.ScopedNode? ==>
                r.value.n == |old(g).scoped| && g.scoped == old(g).scoped + [p] && g.simple == old(g).simple
      ensures r.Ok? && r.value.SimpleNode? ==> OffersAll(ts, g, r.value.n, p.outputs, key, |p.outputs|)
      ensures r.Ok? && r.value.ScopedNode? ==> OffersScoped(g, r.value.n, p.outputs, |p.outputs|)
      ensures r.Ok? && r.value.SimpleNode? && p.outputs == [] ==> Undisturbed(old(g), g)
      ensures r.Err? ==>
                || (r.error == Incompatible && Asks(p, MODULE_KEY) && Asks(p, OWN_MODULE_KEY))
                || InputsFault(ts, g, p.inputs, key, r.error)
                || (!Asks(p, MODULE_KEY) && OutputsFault(ts, g, |old(g).simple|, p.outputs, key, r.error))
                || (Asks(p, MODULE_KEY) && r.error == Duplicate && ScopedFault(g, |old(g).scoped|, p.outputs))
    {
      r := CheckInputs(p, key);
      if r.Err? {
        return;
      }
      ghost var g1 := g;
      if !Asks(p, MODULE_KEY) {
        var n := AddSimple(p, key);
        AccumulatesTransitive(ts, old(g), g1, g);
        if p.outputs == [] {
          UndisturbedStill(g1, g);
          UndisturbedTransitive(old(g), g1, g);
        }
        r := if n.Ok? then Ok(SimpleNode(n.value)) else Err(n.error);
      } else if Asks(p, OWN_MODULE_KEY) {
        r := Err(Incompatible);
      } else {
        var n := AddScoped(p);
        AccumulatesTransitive(ts, old(g), g1, g);
        r := if n.Ok? then Ok(ScopedNode(n.value)) else Err(n.error);
      }
    }

    /** Looks every input up once, so that groups and implicit bindings it mentions are registered. */
    method CheckInputs(p: Provider, key: Option<Module>) returns (r: Outcome<NodeRef>)
      requires Contents(ts, g)
      modifies this`g
      ensures Contents(ts, g) && Accumulates(ts, old(g), g) && g.simple == old(g).simple && g.scoped == old(g).scoped
      ensures r.Ok? ==> NoneCollected(ts, p.inputs) && Undisturbed(old(g), g)
      ensures r.Err? ==> InputsFault(ts, g, p.inputs, key, r.error)
    {
      AccumulatesStill(ts, g);
      UndisturbedStill(g, g);
      var i := 0;
      while i < |p.inputs|
        invariant 0 <= i <= |p.inputs| && Contents(ts, g) && Accumulates(ts, old(g), g) && Undisturbed(old(g), g)
        invariant g.simple == old(g).simple && g.scoped == old(g).scoped
        invariant NoneCollected(ts, p.inputs[..i])
      {
        if IsElement(ts, p.inputs[i].typ) {
          InputsFaultAt(ts, g, p.inputs, i, key, NotAnInput);
          return Err(NotAnInput);
        }
        NoneCollectedNext(ts, p.inputs, i);
        var found := CheckInput(old(g), p.inputs[i].typ, key);
        if found.Err? {
          InputsFaultAt(ts, g, p.inputs, i, key, found.error);
          return Err(found.error);
        }
        i := i + 1;
      }
      assert p.inputs[..i] == p.inputs;
      return Ok(SimpleNode(0));
    }

    method CheckInput(ghost g0: Graph, typ: Type, key: Option<Module>) returns (r: Outcome<()>)
      requires Contents(ts, g) && Accumulates(ts, g0, g) && Undisturbed(g0, g) && !IsElement(ts, typ)
      modifies this`g
      ensures Contents(ts, g) && Accumulates(ts, g0, g) && g.simple == old(g).simple && g.scoped == old(g).scoped
      ensures Undisturbed(g0, g) && (r.Err? ==> TypeFault(ts, g, typ, key, r.error))
    {
      var vr := GetResolver(typ, key);
      FindsFault(ts, old(g), Input(typ, false, false), key, g, vr);
      FindsUndisturbed(ts, old(g), typ, key, g, vr);
      UndisturbedTransitive(g0, old(g), g);
      AccumulatesTransitive(ts, g0, old(g), g);
      return if vr.Err? then Err(vr.error) else Ok(());
    }

    method AddSimple(p: Provider, key: Option<Module>) returns (r: Outcome<nat>)
      requires Contents(ts, g) && WellTyped(p)
      modifies this`g
      ensures Contents(ts, g) && Accumulates(ts, old(g), g)
      ensures g.simple == old(g).simple + [Node(p, key)] && g.scoped == old(g).scoped
      ensures r.Ok? ==> r.value == |old(g).simple| && OffersAll(ts, g, r.value, p.outputs, key, |p.outputs|)
      ensures r.Err? ==> OutputsFault(ts, g, |old(g).simple|, p.outputs, key, r.error)
      ensures p.outputs == [] ==> g.resolvers == old(g).resolvers
    {
      var n := |g.simple|;
      NodeOk(ts, g, Node(p, key));
      NoneYet(ts, g, Node(p, key));
      g := g.(simple := g.simple + [Node(p, key)]);
      OffersNone(ts, g, n, p.outputs, key);
      var i := 0;
      while i < |p.outputs|
        invariant 0 <= i <= |p.outputs| && Contents(ts, g) && Accumulates(ts, old(g), g)
        invariant g.simple == old(g).simple + [Node(p, key)] && g.scoped == old(g).scoped
        invariant OffersAll(ts, g, n, p.outputs, key, i) && (p.outputs == [] ==> g.resolvers == old(g).resolvers)
        invariant NoneFrom(g, n, i)
      {
        var added := ProvideNext(old(g), n, p.outputs, i, key);
        if added.Err? {
          return Err(added.error);
        }
        i := i + 1;
      }
      return Ok(n);
    }

    method ProvideNext(ghost g0: Graph, n: nat, outputs: seq<Type>, i: nat,
                       key: Option<Module>) returns (r: Outcome<()>)
      requires Contents(ts, g) && Accumulates(ts, g0, g) && i < |outputs| && ValidOutput(g, Output(n, i))
      requires OffersAll(ts, g, n, outputs, key, i) && NoneFrom(g, n, i)
      modifies this`g
      ensures Contents(ts, g) && Accumulates(ts, g0, g) && g.simple == old(g).simple && g.scoped == old(g).scoped
      ensures r.Ok? ==> OffersAll(ts, g, n, outputs, key, i + 1) && NoneFrom(g, n, i + 1)
      ensures r.Err? ==> OutputFault(ts, g, n, i, outputs[i], key, r.error)
    {
      if ts.IsOnePerMap(outputs[i]) {
        return Err(NotAnOutput);
      }
      r := Provide(n, i, outputs[i], Provided(ts, outputs[i]), key);
      AccumulatesTransitive(ts, g0, old(g), g);
      if r.Ok? {
        OffersNext(ts, old(g), g, n, outputs, key, i);
      }
    }

    /** Makes an output of a simple provider, declared with some type, available under the type it provides. */
    method Provide(n: nat, i: nat, ghost declared: Type, typ: Type, key: Option<Module>) returns (r: Outcome<()>)
      requires Contents(ts, g) && ValidOutput(g, Output(n, i)) && NoneFrom(g, n, i) && typ == Provided(ts, declared)
      modifies this`g
      ensures Contents(ts, g) && Accumulates(ts, old(g), g) && g.simple == old(g).simple && g.scoped == old(g).scoped
      ensures r.Ok? ==> Offers(ts, g, n, i, typ, key) && NoneFrom(g, n, i + 1)
      ensures r.Err? ==> OutputFault(ts, g, n, i, declared, key, r.error)
    {
      var vr := GetResolver(typ, key);
      FindsNone(ts, old(g), typ, key, g, vr, n, i);
      if vr.Err? {
        FindsOutputFault(ts, old(g), n, i, declared, key, g, vr);
        return Err(vr.error);
      }
      ghost var g1 := g;
      if vr.value.Some? {
        RegisteredIsValid(ts, g, NameOf(g, typ, key));
        r := AddOutput(vr.value.value, n, i, typ, key);
      } else {
        ProvideNew(n, i, typ, key);
        r := Ok(());
      }
      AccumulatesTransitive(ts, old(g), g1, g);
    }

    method ProvideNew(n: nat, i: nat, typ: Type, ghost key: Option<Module>)
      requires Contents(ts, g) && ValidOutput(g, Output(n, i))
      requires typ !in g.resolvers && Binding(g, typ, key).None? && Plain(ts, typ) && NoneFrom(g, n, i)
      modifies this`g
      ensures Contents(ts, g) && Accumulates(ts, old(g), g) && g == WithResolver(old(g), typ, Simple(n, i, typ))
      ensures Offers(ts, g, n, i, typ, key) && NoneFrom(g, n, i + 1)
    {
      OneMoreType(g, n, i, typ);
      OwnResolverOk(ts, g, typ, Simple(n, i, typ));
      SimpleOffers(ts, g, typ, key, n, i);
      g := WithResolver(g, typ, Simple(n, i, typ));
    }

    /** The `addNode` methods of the resolvers: only group elements accept another provider. */
    method AddOutput(vr: Resolver, n: nat, i: nat, ghost typ: Type, key: Option<Module>) returns (r: Outcome<()>)
      requires Contents(ts, g) && ValidResolver(g, vr) && Lookup(g, typ, key) == Some(vr)
      requires ValidOutput(g, Output(n, i)) && NoneFrom(g, n, i)
      modifies this`g
      ensures Contents(ts, g) && Accumulates(ts, old(g), g) && (r.Ok? ==> NoneFrom(g, n, i + 1))
      ensures r.Err? ==> if vr.PerModuleMap? then r.error == NotAnOutput else Occupied(g, n, i, vr, key, r.error)
      ensures r.Ok? <==> match vr
                         case GroupElem(_, _) => true
                         case GroupSlice(_, _) => true
                         case PerModuleElem(e, _) => key.Some? && key.value !in old(g).perModule[e]
                         case _ => false
      ensures r.Ok? && vr.PerModuleElem? ==> g == WithTableEntry(old(g), vr.elem, key.value, Output(n, i))
      ensures r.Ok? && !vr.PerModuleElem? ==> g == WithMember(old(g), vr.elem, Output(n, i))
      ensures r.Err? ==> g == old(g)
      ensures r.Ok? ==> Offers(ts, g, n, i, typ, key)
    {
      AccumulatesStill(ts, g);
      match vr {
        case Simple(_, _, _) =>
          OccupiedBefore(g, n, i, typ, key, vr, Duplicate);
          return Err(Duplicate);
        case Scoped(_, _, _) => return Err(Duplicate);
        case Supplied(_, _) => return Err(Duplicate);
        case PerModuleMap(_, _) => return Err(NotAnOutput);
        case GroupElem(e, _) => Join(e, n, i);
        case GroupSlice(e, _) => Join(e, n, i);
        case PerModuleElem(e, _) =>
          if key.None? {
            return Err(OutsideModule);
          }
          if key.value in g.perModule[e] {
            OccupiedBefore(g, n, i, typ, key, vr, Duplicate);
            return Err(Duplicate);
          }
          OneMoreEntry(g, n, i, e, key.value);
          TableEntryOk(ts, g, e, key.value, Output(n, i));
          TableEntryAdds(g, e, key.value, Output(n, i));
          g := WithTableEntry(g, e, key.value, Output(n, i));
      }
      return Ok(());
    }

    method Join(e: Type, n: nat, i: nat)
      requires Contents(ts, g) && e in g.groups && ValidOutput(g, Output(n, i)) && NoneFrom(g, n, i)
      modifies this`g
      ensures Contents(ts, g) && Accumulates(ts, old(g), g) && g == WithMember(old(g), e, Output(n, i))
      ensures Output(n, i) in g.groups[e] && NoneFrom(g, n, i + 1)
    {
      OneMoreMember(g, n, i, e);
      MemberOk(ts, g, e, Output(n, i));
      MemberAdds(g, e, Output(n, i));
      g := WithMember(g, e, Output(n, i));
    }

    method AddScoped(p: Provider) returns (r: Outcome<nat>)
      requires Contents(ts, g) && WellTyped(p)
      modifies this`g
      ensures Contents(ts, g) && Accumulates(ts, old(g), g)
      ensures g.scoped == old(g).scoped + [p] && g.simple == old(g).simple
      ensures r.Ok? ==> r.value == |old(g).scoped| && OffersScoped(g, r.value, p.outputs, |p.outputs|)
      ensures r.Err? ==> r.error == Duplicate && ScopedFault(g, |old(g).scoped|, p.outputs)
    {
      var n := |g.scoped|;
      ScopedNodeOk(ts, g, p);
      NoneScopedYet(ts, g, p);
      g := g.(scoped := g.scoped + [p]);
      OffersScopedNone(g, n, p.outputs);
      var i := 0;
      while i < |p.outputs|
        invariant 0 <= i <= |p.outputs| && Contents(ts, g) && Accumulates(ts, old(g), g)
        invariant g.scoped == old(g).scoped + [p] && g.simple == old(g).simple
        invariant OffersScoped(g, n, p.outputs, i) && NoneScopedFrom(g, n, i)
      {
        var typ := p.outputs[i];
        if typ in g.resolvers {
          return Err(Duplicate);
        }
        OwnResolverOk(ts, g, typ, Scoped(n, i, typ));
        OffersScopedNext(g, n, p.outputs, i);
        ghost var g1 := g;
        g := WithResolver(g, typ, Scoped(n, i, typ));
        AccumulatesTransitive(ts, old(g), g1, g);
        i := i + 1;
      }
      return Ok(n);
    }

    method Supply(v: Value, typ: Type) returns (r: Outcome<()>)
      requires Contents(ts, g)
      modifies this`g
      ensures Contents(ts, g) && Accumulates(ts, old(g), g)
      ensures r.Ok? <==> typ !in old(g).resolvers
      ensures g == if r.Ok? then WithResolver(old(g), typ, Supplied(v, typ)) else old(g)
    {
      AccumulatesStill(ts, g);
      if typ in g.resolvers {
        return Err(Duplicate);
      }
      OwnResolverOk(ts, g, typ, Supplied(v, typ));
      g := WithResolver(g, typ, Supplied(v, typ));
      return Ok(());
    }

    /** A value that is supplied for a collected type is lost as soon as the collection is asked for. */
    method SuppliedIsLost(v: Value, elem: Type, key: Option<Module>)
      returns (supplied: Outcome<()>, r: Outcome<Option<Resolver>>)
      requires Contents(ts, g) && ts.isMany(elem) && elem !in g.resolvers && ts.sliceOf(elem) !in g.resolvers
      requires Binding(g, ts.sliceOf(elem), key).None?
      modifies this`g
      ensures supplied.Ok? && r == Ok(Some(GroupSlice(elem, ts.sliceOf(elem))))
      ensures g == WithSlice(WithResolver(old(g), elem, Supplied(v, elem)), elem, ts.sliceOf(elem))
      ensures elem in g.groups && g.groups[elem] == []
      ensures SuppliesNoMore(old(g), g, v, elem)
    {
      SliceElem(ts, g, elem);
      LostValue(g, v, elem, ts.sliceOf(elem));
      supplied := Supply(v, elem);
      r := GetResolver(ts.sliceOf(elem), key);
    }

    method AddInvoker(p: Provider, key: Option<Module>) returns (r: Outcome<()>)
      requires Contents(ts, g)
      modifies this`g
      ensures Contents(ts, g) && (r.Ok? <==> p.outputs == [])
      ensures g == if r.Ok? then old(g).(invokers := old(g).invokers + [Node(p, key)]) else old(g)
    {
      if p.outputs != [] {
        return Err(InvokerHasOutputs);
      }
      InvokerOk(ts, g, Node(p, key));
      g := g.(invokers := g.invokers + [Node(p, key)]);
      return Ok(());
    }

    // -------------------------------------------------------------------------
    // Building
    // -------------------------------------------------------------------------

    /**
     * Registers the wanted outputs as the inputs of one more provider, resolves it and calls the
     * invokers. It terminates for every provider graph. Whether it succeeds or not, every provider
     * has run at most once (a module-scoped one at most once for each module), after the providers
     * of all its resolved inputs and on exactly their values; so has the one whose error made it
     * fail. When it succeeds, no cycle of the provider graph can be reached from the outputs.
     */
    method Build(loc: Location, outputs: seq<Type>)
      returns (r: Outcome<()>, ghost start: Graph, ghost root: nat, ghost values: seq<Value>)
      requires Contents(ts, g) && Untouched()
      modifies this
      ensures Accumulates(ts, old(g), start) && g.invokers == old(g).invokers
      ensures WellFormed(start) && WellFormed(g) && Grows(start, g)
      ensures LogOk(start, g, memo, log) && MemoOk(g, memo, log)
      ensures forall i :: 0 <= i < |log| ==> RunExplained(start, g, log[..i], log[i])
      ensures failed.Some? ==> r.Err? && FailureOk(start, g, memo, log, failed.value)
      ensures r.Ok? ==> start.simple == old(g).simple + [RootNode(loc, outputs)] && start.scoped == old(g).scoped
      ensures r.Ok? ==> root == |old(g).simple| && SimpleRun(root) in Ran(log)
      ensures r.Ok? ==> exists i :: 0 <= i < |log| && ResolvesOutputs(start, g, log[..i], log[i], root, outputs, values)
      ensures r.Ok? ==> Acyclic(Stages(old(g), start, g), SimpleRun(root))
      ensures r.Ok? ==> InvokersOrdered(log) && forall i :: 0 <= i < |g.invokers| ==> InvokerRun(i) in Ran(log)
      ensures LeadsToCycle(old(g), AsInputs(outputs)) ==> r.Err?
      ensures r.Err? ==>
                || RootFault(ts, g, outputs, r.error)
                || (r.error == ProviderFailed && failed.Some?)
                || exists chain :: LeadsToFault(ts, start, root, g, chain, r.error)
    {
      ghost var e;
      r, e := Assemble(loc, outputs);
      start, root := e.start, |old(g).simple|;
      BuildParts(e, Now());
      LogExplained(start, g, memo, log);
      if r.Err? && !RootFault(ts, g, outputs, r.error) {
        BlameExplained(e.ts, e.start, e.root, g, callerMap, stack, failed.Some?, r.error);
      }
      AccumulatesInvokers(ts, old(g), start);
      values := [];
      if r.Ok? {
        values := OutputValues(start, g, log, old(g), root, loc, outputs);
        InvokersParts(log, |start.invokers|);
        BuildCycles(e, Now(), old(g), loc, outputs);
      }
    }

    method Assemble(loc: Location, outputs: seq<Type>) returns (r: Outcome<()>, ghost e: Env)
      requires Contents(ts, g) && Untouched()
      modifies this`g, this`memo, this`callerMap, this`log, this`failed, this`stack
      ensures e.ts == ts && e.root == |old(g).simple| && Ready(e, Now()) && Accumulates(ts, old(g), e.start)
      ensures r.Ok? ==> Going(e, Now()) && Rooted(e, old(g), loc, outputs)
      ensures r.Err? ==> RootFault(ts, g, outputs, r.error) || BlameAt(e, Now(), r.error)
      ensures r.Ok? ==> SimpleRun(|old(g).simple|) in Ran(log) && InvokersRun(log, |e.start.invokers|)
    {
      var n;
      n, e := AddRoot(loc, outputs);
      if n.Err? {
        GoingParts(e, Now());
        return Err(n.error), e;
      }
      r := RunAll(e, n.value);
    }

    /** Registers the wanted outputs as the inputs of one more simple provider. */
    method AddRoot(loc: Location, outputs: seq<Type>) returns (r: Outcome<nat>, ghost e: Env)
      requires Contents(ts, g) && Untouched()
      modifies this`g
      ensures e.ts == ts && e.root == |old(g).simple| && Going(e, Now()) && log == []
      ensures Accumulates(ts, old(g), e.start)
      ensures r.Ok? ==> r.value == |old(g).simple| < |g.simple| && Rooted(e, old(g), loc, outputs)
      ensures r.Err? ==> RootFault(ts, g, outputs, r.error)
    {
      var node := AddNode(RootNode(loc, outputs).provider, None);
      e := Env(ts, g, |old(g).simple|, AllLocations(g));
      StartOk(e, Now());
      if node.Err? {
        RootFails(ts, g, loc, outputs, node.error);
        return Err(node.error), e;
      }
      if node.value.ScopedNode? {
        return Err(Incompatible), e;
      }
      return Ok(node.value.n), e;
    }

    method RunAll(ghost e: Env, root: nat) returns (r: Outcome<()>)
      requires e.ts == ts && Going(e, Now()) && log == [] && root < |g.simple| && root == e.root && stack == []
      modifies this`g, this`memo, this`callerMap, this`log, this`failed, this`stack
      ensures Ready(e, Now()) && (r.Err? ==> BlameAt(e, Now(), r.error))
      ensures r.Ok? ==> Going(e, Now()) && SimpleRun(root) in Ran(log) && InvokersRun(log, |e.start.invokers|)
    {
      InvokersNone();
      WantedOrigin(e.start, e.root, g, SimpleRun(root));
      var values := ResolveValues(e, root);
      MovesParts(e, old(Now()), Now(), values.Ok?);
      if values.Err? {
        return Err(values.error);
      }
      MovesInvokers(e, old(Now()), Now(), 0);
      NotYetRun(e, Now(), root, None);
      HasRunWhole(log, SimpleRun(root));
      RestingWhole(e, Now(), 0);
      r := CallInvokers(e);
      if r.Ok? {
        RestingParts(e, Now(), |e.start.invokers|);
        HasRunParts(log, SimpleRun(root));
        RestingReady(e, Now(), |e.start.invokers|);
      }
    }

    method CallInvokers(ghost e: Env) returns (r: Outcome<()>)
      requires e.ts == ts && Resting(e, Now(), 0)
      modifies this`g, this`memo, this`callerMap, this`log, this`failed, this`stack
      ensures r.Ok? ==> Resting(e, Now(), |e.start.invokers|)
      ensures r.Err? ==> Ready(e, Now()) && BlameAt(e, Now(), r.error)
    {
      RestingReady(e, Now(), 0);
      var i, n := 0, |g.invokers|;
      r := Ok(());
      while i < n && r.Ok?
        invariant 0 <= i <= n && n == |e.start.invokers|
        invariant r.Ok? ==> Resting(e, Now(), i)
        invariant r.Err? ==> Ready(e, Now()) && BlameAt(e, Now(), r.error)
      {
        r := CallInvoker(e, i);
        i := i + 1;
      }
    }

    method CallInvoker(ghost e: Env, i: nat) returns (r: Outcome<()>)
      requires e.ts == ts && Resting(e, Now(), i) && i < |e.start.invokers|
      modifies this`g, this`memo, this`callerMap, this`log, this`failed, this`stack
      ensures r.Ok? ==> Resting(e, Now(), i + 1)
      ensures r.Err? ==> Ready(e, Now()) && BlameAt(e, Now(), r.error)
    {
      RestingReady(e, Now(), i);
      RestingNext(e, Now(), i);
      var invoker := g.invokers[i];
      var values, run, ran := Call(e, invoker.provider, invoker.moduleKey, InvokerRun(i));
      if values.Ok? {
        RestingAgain(e, old(Now()), Now(), i, run);
        log := log + [run];
        return Ok(());
      }
      if ran {
        Fail(e, old(Now()), run);
      }
      MovesParts(e, old(Now()), Now(), false);
      return Err(values.error);
    }
  }

  /** What a type with an explicit binding to `impl` resolves to. */
  function Bound(g: Graph, impl: Type): Outcome<Option<Resolver>> {
    if impl in g.resolvers then Ok(Some(g.resolvers[impl])) else Err(NoTypeForBinding)
  }

  datatype NodeRef = SimpleNode(n: nat) | ScopedNode(n: nat)

  /** The run of the root was called on the values of the wanted outputs. */
  ghost predicate ResolvesOutputs(start: Graph, g: Graph, earlier: seq<Run>, run: Run, root: nat, outputs: seq<Type>,
                                  values: seq<Value>)
  {
    && run.who == SimpleRun(root) && run.args == values && |values| == |outputs|
    && forall k :: 0 <= k < |outputs| ==>
         Explained(start, g, earlier, Input(typ := outputs[k], optional := false, ignored := false), None, values[k])
  }

  lemma OutputValues(start: Graph, g: Graph, log: seq<Run>, given: Graph, root: nat, loc: Location, outputs: seq<Type>)
    returns (values: seq<Value>)
    requires SimpleRun(root) in Ran(log) && root == |given.simple| && Grows(start, g)
    requires start.simple == given.simple + [RootNode(loc, outputs)]
    requires forall i :: 0 <= i < |log| ==> RunExplained(start, g, log[..i], log[i])
    ensures exists i :: 0 <= i < |log| && ResolvesOutputs(start, g, log[..i], log[i], root, outputs, values)
  {
    var i := Position(log, SimpleRun(root));
    assert RunExplained(start, g, log[..i], log[i]);
    values := log[i].args;
    assert log[i].provider == RootNode(loc, outputs).provider && log[i].moduleKey == None;
    forall k | 0 <= k < |outputs|
      ensures Explained(start, g, log[..i], Input(typ := outputs[k], optional := false, ignored := false), None,
                        values[k])
    {
      assert log[i].provider.inputs[k] == Input(outputs[k], false, false);
    }
    assert ResolvesOutputs(start, g, log[..i], log[i], root, outputs, values);
  }

  function AsInputs(types: seq<Type>): seq<Input> {
    seq(|types|, i requires 0 <= i < |types| => Input(types[i], false, false))
  }

  /** The wanted outputs of a build as the inputs of a provider without outputs. */
  function RootNode(loc: Location, outputs: seq<Type>): Node {
    Node(Provider(loc, AsInputs(outputs), [], _ => Some([])), None)
  }

  /** The wanted outputs include a module key, a collected type, or one with a binding that leads nowhere. */
  ghost predicate RootFault(ts: TypeSystem, g: Graph, outputs: seq<Type>, err: ResolveError) {
    if err == Incompatible then MODULE_KEY in outputs
    else exists t :: t in outputs && TypeFault(ts, g, t, None, err)
  }

  lemma RootFails(ts: TypeSystem, g: Graph, loc: Location, outputs: seq<Type>, err: ResolveError)
    requires var p := RootNode(loc, outputs).provider;
             (err == Incompatible && Asks(p, MODULE_KEY)) || InputsFault(ts, g, p.inputs, None, err)
    ensures RootFault(ts, g, outputs, err)
  {
    var p := RootNode(loc, outputs).provider;
    if InputsFault(ts, g, p.inputs, None, err) {
      var i := InputsFaultParts(ts, g, p.inputs, None, err);
      assert outputs[i] in outputs;
    }
  }

  /** The container as it was given, with the root. */
  ghost predicate Rooted(e: Env, given: Graph, loc: Location, outputs: seq<Type>) {
    && e.start.simple == given.simple + [RootNode(loc, outputs)] && e.start.scoped == given.scoped
    && Undisturbed(given, e.start)
  }

  ghost function AllLocations(g: Graph): set<Location> {
    (set n: nat | n < |g.simple| :: g.simple[n].provider.loc)
    + (set n: nat | n < |g.scoped| :: g.scoped[n].loc)
    + (set n: nat | n < |g.invokers| :: g.invokers[n].provider.loc)
  }

  lemma SliceElem(ts: TypeSystem, g: Graph, elem: Type)
    requires Contents(ts, g) && ts.isMany(elem)
    ensures ts.Elem(ts.sliceOf(elem)) == elem && !Plain(ts, ts.sliceOf(elem)) && ts.sliceOf(elem) != elem
  {
    ContentsLawful(ts, g);
    assert ts.sliceElem(ts.sliceOf(elem)) == Some(elem);
  }

  /** The value of a type is supplied where it was before, and nowhere else. */
  ghost predicate SuppliesNoMore(g: Graph, g': Graph, v: Value, elem: Type) {
    forall t :: t in g'.resolvers && g'.resolvers[t] == Supplied(v, elem) ==>
      t in g.resolvers && g.resolvers[t] == Supplied(v, elem)
  }

  lemma LostValue(g: Graph, v: Value, elem: Type, slice: Type)
    ensures SuppliesNoMore(g, WithSlice(WithResolver(g, elem, Supplied(v, elem)), elem, slice), v, elem)
  {
  }

  lemma EmptyContents(ts: TypeSystem, bindings: map<(Type, Option<Module>), Type>)
    requires ts.Lawful()
    ensures Contents(ts, Graph(map[], bindings, [], [], map[], map[], []))
  {
    assert Unfold(0) && Fold(0);
  }

  /** Before anything is resolved the invariant of the resolution holds. */
  lemma StartOk(e: Env, s: Snap)
    requires Contents(e.ts, s.g) && e.start == s.g && e.locs == AllLocations(s.g)
    requires s == Snap(s.g, Memo(map[], map[], map[]), [], {}, None, [])
    ensures Going(e, s)
  {
    ContentsParts(e.ts, s.g);
    UndisturbedStill(s.g, s.g);
    StackedNone(e.start, e.root, s.g);
    StateWhole(s.g, s.g, s.m, s.log);
    GoingWhole(e, s);
  }

  lemma BuildParts(e: Env, s: Snap)
    requires Ready(e, s)
    ensures WellFormed(e.start) && WellFormed(s.g) && Grows(e.start, s.g)
    ensures LogOk(e.start, s.g, s.m, s.log) && MemoOk(s.g, s.m, s.log)
    ensures s.failed.Some? ==> FailureOk(e.start, s.g, s.m, s.log, s.failed.value)
    ensures Going(e, s) ==> s.failed.None?
  {
    ReadyParts(e, s);
    StateParts(e.start, s.g, s.m, s.log);
    FailedParts(e.start, s.g, s.m, s.log, s.failed);
    if Going(e, s) {
      GoingParts(e, s);
    }
  }

  /** Only module-scoped providers give different values to different modules. */
  lemma AnyKey(s: Snap, r: Resolver, key: Option<Module>, v: Value)
    requires ResolvedAt(s, r, None, v) && !r.Scoped?
    ensures ResolvedAt(s, r, key, v)
  {
    ResolvedParts(s.g, s.m, s.log, r, None, v);
    ResolvedWhole(s.g, s.m, s.log, r, key, v);
  }

  /** What a successful resolution of the root says about the providers that can be reached from it. */
  lemma BuildCycles(e: Env, s: Snap, given: Graph, loc: Location, outputs: seq<Type>)
    requires Going(e, s) && SimpleRun(|given.simple|) in Ran(s.log)
    requires Contents(e.ts, given) && Accumulates(e.ts, given, e.start) && Rooted(e, given, loc, outputs)
    ensures Acyclic(Stages(given, e.start, s.g), SimpleRun(|given.simple|))
    ensures !LeadsToCycle(given, AsInputs(outputs))
  {
    var st, root := Stages(given, e.start, s.g), |given.simple|;
    GoingParts(e, s);
    StateParts(e.start, s.g, s.m, s.log);
    BuildStaged(e, s, given, loc, outputs);
    forall path, cycle | Closes(st, path, cycle) ensures path[0] != SimpleRun(root) {
      NoReachableCycle(st, s.m, s.log, path, cycle);
    }
    assert s.g.simple[root] == RootNode(loc, outputs);
    NoGivenCycle(st, root, AsInputs(outputs));
  }

  lemma BuildStaged(e: Env, s: Snap, given: Graph, loc: Location, outputs: seq<Type>)
    requires Going(e, s) && Contents(e.ts, given) && Accumulates(e.ts, given, e.start) && Rooted(e, given, loc, outputs)
    ensures Staged(Stages(given, e.start, s.g))
  {
    GoingParts(e, s);
    StateParts(e.start, s.g, s.m, s.log);
    ContentsParts(e.ts, given);
    AccumulatesExtends(e.ts, given, e.start);
  }

  /** A lookup that found the resolver of the elements of a group or table. */
  predicate IsForElements(r: Outcome<Option<Resolver>>) {
    r.Ok? && r.value.Some? && ForElements(r.value.value)
  }

  predicate NoneCollected(ts: TypeSystem, inputs: seq<Input>) {
    forall i :: 0 <= i < |inputs| ==> !IsElement(ts, inputs[i].typ)
  }

  lemma NoneCollectedNext(ts: TypeSystem, inputs: seq<Input>, i: nat)
    requires i < |inputs| && NoneCollected(ts, inputs[..i])
    requires !IsElement(ts, inputs[i].typ)
    ensures NoneCollected(ts, inputs[..i + 1])
  {
    assert inputs[..i + 1] == inputs[..i] + [inputs[i]];
  }

  predicate Asks(p: Provider, typ: Type) {
    exists i :: 0 <= i < |p.inputs| && p.inputs[i].typ == typ
  }
}
