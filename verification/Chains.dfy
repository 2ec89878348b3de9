/** Chains of providers that are being called, and what a resolution that fails can be blamed on. */
module Chains {
  import opened ProviderGraph
  import opened Registration
  import opened Hiding
  import opened Options

  /** The graph that resolution started with and the one that it has come to. */
  function Between(start: Graph, g: Graph): Stages {
    Stages(start, g, g)
  }

  ghost function LocOf(g: Graph, who: Runner): Option<Location> {
    if Registered(g, who).Some? then Some(Registered(g, who).value.0.loc) else None
  }

  // ---------------------------------------------------------------------------
  // What becomes of dependencies when the graph grows
  // ---------------------------------------------------------------------------

  lemma FeedsStable(start: Graph, g: Graph, g': Graph, input: Input, key: Option<Module>, dep: Runner)
    requires Grows(start, g) && Grows(g, g') && WellFormed(g) && EitherFeeds(Between(start, g), input, key, dep)
    ensures EitherFeeds(Between(start, g'), input, key, dep)
  {
    if Feeds(g, g, input, key, dep) {
      var r := Lookup(g, input.typ, key).value;
      LookupStable(g, g', input.typ, key);
      RunsStable(g, g', r, key);
      if Lookup(g', input.typ, key) != Some(r) {
        var name := NameOf(g, input.typ, key);
        assert name == NameOf(start, input.typ, key);
        assert name in start.resolvers && start.resolvers[name] == r;
      }
    }
  }

  lemma EdgeStable(start: Graph, g: Graph, g': Graph, who: Runner, dep: Runner)
    requires Grows(start, g) && Grows(g, g') && WellFormed(g) && Edge(Between(start, g), who, dep)
    ensures Edge(Between(start, g'), who, dep)
  {
    var (provider, key) := Registered(g, who).value;
    var i :| 0 <= i < |provider.inputs| && EitherFeeds(Between(start, g), provider.inputs[i], key, dep);
    FeedsStable(start, g, g', provider.inputs[i], key, dep);
    assert Registered(g', who) == Some((provider, key));
  }

  lemma PathStable(start: Graph, g: Graph, g': Graph, path: seq<Runner>)
    requires Grows(start, g) && Grows(g, g') && WellFormed(g) && IsPath(Between(start, g), path)
    ensures IsPath(Between(start, g'), path)
  {
    forall i | 0 <= i < |path| - 1 ensures Edge(Between(start, g'), path[i], path[i + 1]) {
      assert Edge(Between(start, g), path[i], path[i + 1]);
      EdgeStable(start, g, g', path[i], path[i + 1]);
    }
  }

  lemma PathThen(st: Stages, path: seq<Runner>, who: Runner)
    requires IsPath(st, path) && Edge(st, path[|path| - 1], who)
    ensures IsPath(st, path + [who])
  {
    var longer := path + [who];
    forall i | 0 <= i < |longer| - 1 ensures Edge(st, longer[i], longer[i + 1]) {
      if i < |path| - 1 {
        assert Edge(st, path[i], path[i + 1]);
      }
    }
  }

  // ---------------------------------------------------------------------------
  // The stack of providers that are being called
  // ---------------------------------------------------------------------------

  /** What is called without being asked for by a provider: the root, and invokers. */
  ghost predicate Origin(root: nat, who: Runner) {
    who == SimpleRun(root) || who.InvokerRun?
  }

  /** The provider is asked for by the last one on the stack. */
  ghost predicate Wanted(start: Graph, root: nat, g: Graph, stack: seq<Runner>, dep: Runner) {
    forall z: int {:trigger Unfold(z)} :: Guard(z) ==> exists w: int {:trigger Fold(w)} ::
      Fold(w) && if stack == [] then Origin(root, dep) else Edge(Between(start, g), stack[|stack| - 1], dep)
  }

  /** So are all providers whose results the resolver needs. */
  ghost predicate WantedAll(start: Graph, root: nat, g: Graph, stack: seq<Runner>, r: Resolver, key: Option<Module>) {
    forall z: int {:trigger Unfold(z)} :: Guard(z) ==> exists w: int {:trigger Fold(w)} ::
      Fold(w) && forall dep :: dep in RunsOf(g, r, key) ==> Wanted(start, root, g, stack, dep)
  }

  /** The stack is a chain of dependencies, and what is being called are the locations on it. */
  ghost predicate Stacked(start: Graph, root: nat, g: Graph, calling: set<Location>, stack: seq<Runner>) {
    forall z: int {:trigger Unfold(z)} :: Guard(z) ==> exists w: int {:trigger Fold(w)} ::
      && Fold(w)
      && (stack != [] ==> IsPath(Between(start, g), stack) && Origin(root, stack[0]))
      && (forall who :: who in stack ==> LocOf(g, who).Some? && LocOf(g, who).value in calling)
      && (forall l :: l in calling ==> exists who :: who in stack && LocOf(g, who) == Some(l))
  }

  /** The last provider on the stack has this input. */
  ghost predicate Asked(g: Graph, stack: seq<Runner>, input: Input, key: Option<Module>) {
    && stack != []
    && var p := Registered(g, stack[|stack| - 1]);
       p.Some? && p.value.1 == key && input in p.value.0.inputs
  }

  lemma StackedNone(start: Graph, root: nat, g: Graph)
    ensures Stacked(start, root, g, {}, [])
  {
    assert Unfold(0) && Fold(0);
  }

  lemma StackedStable(start: Graph, root: nat, g: Graph, g': Graph, calling: set<Location>, stack: seq<Runner>)
    requires Grows(start, g) && Grows(g, g') && WellFormed(g) && Stacked(start, root, g, calling, stack)
    ensures Stacked(start, root, g', calling, stack)
  {
    assert Unfold(0);
    if stack != [] {
      PathStable(start, g, g', stack);
    }
    forall who ensures LocOf(g', who) == LocOf(g, who) {
      SameLocation(g, g', who);
    }
  }

  lemma SameLocation(g: Graph, g': Graph, who: Runner)
    requires Grows(g, g')
    ensures Registered(g', who) == Registered(g, who) && LocOf(g', who) == LocOf(g, who)
  {
  }

  lemma StackedPush(start: Graph, root: nat, g: Graph, calling: set<Location>, stack: seq<Runner>, who: Runner)
    requires Stacked(start, root, g, calling, stack) && Wanted(start, root, g, stack, who) && LocOf(g, who).Some?
    ensures Stacked(start, root, g, calling + {LocOf(g, who).value}, stack + [who])
  {
    assert Unfold(0);
    if stack == [] {
      assert stack + [who] == [who];
    } else {
      PathThen(Between(start, g), stack, who);
    }
    forall l | l in calling ensures exists w :: w in stack + [who] && LocOf(g, w) == Some(l) {
      var w :| w in stack && LocOf(g, w) == Some(l);
      assert w in stack + [who];
    }
    assert who in stack + [who];
  }

  lemma WantedStable(start: Graph, root: nat, g: Graph, g': Graph, stack: seq<Runner>, dep: Runner)
    requires Grows(start, g) && Grows(g, g') && WellFormed(g) && Wanted(start, root, g, stack, dep)
    ensures Wanted(start, root, g', stack, dep)
  {
    assert Unfold(0);
    if stack != [] {
      EdgeStable(start, g, g', stack[|stack| - 1], dep);
    }
  }

  lemma WantedOrigin(start: Graph, root: nat, g: Graph, dep: Runner)
    requires Origin(root, dep)
    ensures Wanted(start, root, g, [], dep)
  {
    assert Unfold(0) && Fold(0);
  }

  lemma WantedOne(start: Graph, root: nat, g: Graph, stack: seq<Runner>, r: Resolver, key: Option<Module>, dep: Runner)
    requires WantedAll(start, root, g, stack, r, key) && dep in RunsOf(g, r, key)
    ensures Wanted(start, root, g, stack, dep)
  {
    assert Unfold(0);
  }

  /** Collections need the same providers on behalf of every module. */
  lemma WantedByAll(start: Graph, root: nat, g: Graph, stack: seq<Runner>, r: Resolver, key: Option<Module>)
    requires WantedAll(start, root, g, stack, r, key) && !r.Scoped?
    ensures WantedAll(start, root, g, stack, r, None)
  {
    assert Unfold(0);
    assert RunsOf(g, r, None) == RunsOf(g, r, key);
  }

  /** The members of a wanted group are wanted. */
  lemma WantedMember(start: Graph, root: nat, g: Graph, stack: seq<Runner>, e: Type, c: Type, i: nat)
    requires WantedAll(start, root, g, stack, GroupSlice(e, c), None) && e in g.groups && i < |g.groups[e]|
    ensures Wanted(start, root, g, stack, SimpleRun(g.groups[e][i].node))
  {
    var o := g.groups[e][i];
    assert o in g.groups[e];
    WantedOne(start, root, g, stack, GroupSlice(e, c), None, SimpleRun(o.node));
  }

  lemma WantedEntry(start: Graph, root: nat, g: Graph, stack: seq<Runner>, e: Type, c: Type, k: Module)
    requires WantedAll(start, root, g, stack, PerModuleMap(e, c), None) && e in g.perModule && k in g.perModule[e]
    ensures Wanted(start, root, g, stack, SimpleRun(g.perModule[e][k].node))
  {
    WantedOne(start, root, g, stack, PerModuleMap(e, c), None, SimpleRun(g.perModule[e][k].node));
  }

  /** What an input of the last provider is resolved with is wanted. */
  lemma WantedByInput(start: Graph, root: nat, g: Graph, stack: seq<Runner>, input: Input, key: Option<Module>,
                      r: Resolver)
    requires Asked(g, stack, input, key) && Lookup(g, input.typ, key) == Some(r)
    requires !input.ignored && input.typ != MODULE_KEY && input.typ != OWN_MODULE_KEY
    ensures WantedAll(start, root, g, stack, r, key)
  {
    assert Unfold(0) && Fold(0);
    forall dep | dep in RunsOf(g, r, key) ensures Wanted(start, root, g, stack, dep) {
      assert Feeds(g, g, input, key, dep);
      var provider := Registered(g, stack[|stack| - 1]).value.0;
      var i :| 0 <= i < |provider.inputs| && provider.inputs[i] == input;
      assert EitherFeeds(Between(start, g), provider.inputs[i], key, dep);
    }
  }

  // ---------------------------------------------------------------------------
  // Blame
  // ---------------------------------------------------------------------------

  /** Why an input cannot be resolved in the graph. */
  ghost predicate InputFault(ts: TypeSystem, g: Graph, input: Input, key: Option<Module>, err: ResolveError) {
    && !input.ignored
    && match err
       case OutsideModule => (input.typ == MODULE_KEY || input.typ == OWN_MODULE_KEY) && key.None?
       case NotAnInput => Lookup(g, input.typ, key).Some? && ForElements(Lookup(g, input.typ, key).value)
       case NoTypeForBinding => Binding(g, input.typ, key).Some? && Lookup(g, input.typ, key).None?
       case Ambiguous => Unregistered(ts, g, input.typ, key) && |Implementations(ts, g, input.typ)| > 1
       case Unresolved => !input.optional && Unregistered(ts, g, input.typ, key) && Unbound(ts, g, input.typ)
       case _ => false
  }

  ghost predicate Unregistered(ts: TypeSystem, g: Graph, typ: Type, key: Option<Module>) {
    Binding(g, typ, key).None? && typ !in g.resolvers && Plain(ts, typ)
  }

  /** Not an interface with several registered implementations, or with one that can be used. */
  ghost predicate Unbound(ts: TypeSystem, g: Graph, typ: Type) {
    ts.isInterface(typ) ==>
      |Implementations(ts, g, typ)| <= 1 && forall t :: t in Implementations(ts, g, typ) ==> t !in g.resolvers
  }

  /** Why a provider with an input of this type cannot be registered. */
  ghost predicate TypeFault(ts: TypeSystem, g: Graph, typ: Type, key: Option<Module>, err: ResolveError) {
    if IsElement(ts, typ) then err == NotAnInput else InputFault(ts, g, Input(typ, false, false), key, err)
  }

  ghost predicate InputsFault(ts: TypeSystem, g: Graph, inputs: seq<Input>, key: Option<Module>, err: ResolveError) {
    forall z: int {:trigger Unfold(z)} :: Guard(z) ==> exists w: int {:trigger Fold(w)} ::
      Fold(w) && exists i :: 0 <= i < |inputs| && TypeFault(ts, g, inputs[i].typ, key, err)
  }

  lemma InputsFaultAt(ts: TypeSystem, g: Graph, inputs: seq<Input>, i: nat, key: Option<Module>, err: ResolveError)
    requires i < |inputs| && TypeFault(ts, g, inputs[i].typ, key, err)
    ensures InputsFault(ts, g, inputs, key, err)
  {
    assert Unfold(0) && Fold(0);
  }

  lemma InputsFaultParts(ts: TypeSystem, g: Graph, inputs: seq<Input>, key: Option<Module>,
                         err: ResolveError) returns (i: nat)
    requires InputsFault(ts, g, inputs, key, err)
    ensures i < |inputs| && TypeFault(ts, g, inputs[i].typ, key, err)
  {
    assert Unfold(0);
    i :| 0 <= i < |inputs| && TypeFault(ts, g, inputs[i].typ, key, err);
  }

  /** Why the i-th output of the simple provider `n`, declared with the type `typ`, cannot be registered. */
  ghost predicate OutputFault(ts: TypeSystem, g: Graph, n: nat, i: nat, typ: Type, key: Option<Module>,
                              err: ResolveError)
  {
    var found := Lookup(g, Provided(ts, typ), key);
    if err == NoTypeForBinding || err == Ambiguous then
      InputFault(ts, g, Input(Provided(ts, typ), false, false), key, err)
    else if err == NotAnOutput then ts.IsOnePerMap(typ) || (found.Some? && found.value.PerModuleMap?)
    else found.Some? && Occupied(g, n, i, found.value, key, err)
  }

  /** Another provider or a supplied value has the type, or the module has one already, or there is no module. */
  ghost predicate Occupied(g: Graph, n: nat, i: nat, found: Resolver, key: Option<Module>, err: ResolveError) {
    match found
    case Simple(n', i', _) => err == Duplicate && Output(n', i') != Output(n, i)
    case Scoped(_, _, _) => err == Duplicate
    case Supplied(_, _) => err == Duplicate
    case PerModuleElem(e, _) =>
      if key.None? then err == OutsideModule
      else
        && err == Duplicate
        && e in g.perModule && key.value in g.perModule[e] && g.perModule[e][key.value] != Output(n, i)
    case _ => false
  }

  ghost predicate OutputsFault(ts: TypeSystem, g: Graph, n: nat, outputs: seq<Type>, key: Option<Module>,
                               err: ResolveError)
  {
    exists i :: 0 <= i < |outputs| && OutputFault(ts, g, n, i, outputs[i], key, err)
  }

  /** An output of the module-scoped provider `n` has a type that is registered with something else. */
  ghost predicate ScopedFault(g: Graph, n: nat, outputs: seq<Type>) {
    exists i ::
      0 <= i < |outputs| && outputs[i] in g.resolvers && g.resolvers[outputs[i]] != Scoped(n, i, outputs[i])
  }

  lemma OccupiedBefore(g: Graph, n: nat, i: nat, typ: Type, key: Option<Module>, found: Resolver, err: ResolveError)
    requires NoneFrom(g, n, i) && Lookup(g, typ, key) == Some(found)
    requires match found
             case PerModuleElem(e, _) =>
               if key.None? then err == OutsideModule
               else err == Duplicate && e in g.perModule && key.value in g.perModule[e]
             case _ => err == Duplicate && (found.Simple? || found.Scoped? || found.Supplied?)
    ensures Occupied(g, n, i, found, key, err)
  {
    assert Unfold(0);
  }

  /** A lookup that finds nothing is the fault of the type. */
  lemma FindsFault(ts: TypeSystem, g: Graph, input: Input, key: Option<Module>, g': Graph, r: Outcome<Option<Resolver>>)
    requires Finds(ts, g, input.typ, key, g', r) && !input.ignored
    ensures r.Err? ==> InputFault(ts, g', input, key, r.error) && (r.error == NoTypeForBinding || r.error == Ambiguous)
    ensures r.Ok? && r.value.Some? ==> Lookup(g', input.typ, key) == r.value
    ensures r == Ok(None) && !input.optional ==> InputFault(ts, g', input, key, Unresolved)
  {
    if Unregistered(ts, g, input.typ, key) && ts.isInterface(input.typ) {
      BindsFault(ts, g, input.typ, g', r);
    }
  }

  lemma FindsOutputFault(ts: TypeSystem, g: Graph, n: nat, i: nat, declared: Type, key: Option<Module>, g': Graph,
                         r: Outcome<Option<Resolver>>)
    requires Finds(ts, g, Provided(ts, declared), key, g', r) && r.Err?
    ensures OutputFault(ts, g', n, i, declared, key, r.error)
  {
    FindsFault(ts, g, Input(Provided(ts, declared), false, false), key, g', r);
  }

  lemma BindsFault(ts: TypeSystem, g: Graph, typ: Type, g': Graph, r: Outcome<Option<Resolver>>)
    requires Binds(ts, g, typ, g', r)
    ensures r.Err? ==> r.error == Ambiguous && g' == g && |Implementations(ts, g, typ)| > 1
    ensures r.Ok? && r.value.Some? ==>
              typ in g'.resolvers && g'.resolvers[typ] == r.value.value && g'.bindings == g.bindings
    ensures r == Ok(None) ==> g' == g && Unbound(ts, g, typ)
  {
    assert Unfold(0);
    var impls := Implementations(ts, g, typ);
    if |impls| == 1 {
      var t :| t in impls;
      assert impls == {t} by { OnlyElement(impls, t); }
    }
  }

  lemma OnlyElement<T>(a: set<T>, t: T)
    requires |a| == 1 && t in a
    ensures a == {t}
  {
    assert |a - {t}| == 0;
    assert a == {t} + (a - {t});
  }

  /** What a failed resolution stopped at. */
  ghost predicate Blame(ts: TypeSystem, start: Graph, root: nat, g: Graph, calling: set<Location>, stack: seq<Runner>,
                        failed: bool, err: ResolveError)
  {
    forall z: int {:trigger Unfold(z)} :: Guard(z) ==> exists w: int {:trigger Fold(w)} ::
      && Fold(w)
      && if err == ProviderFailed then failed
         else
           && Stacked(start, root, g, calling, stack)
           && if err == Cyclic then exists who :: CalledAgain(start, root, g, calling, stack, who)
              else exists input, key :: Asked(g, stack, input, key) && InputFault(ts, g, input, key, err)
  }

  ghost predicate CalledAgain(start: Graph, root: nat, g: Graph, calling: set<Location>, stack: seq<Runner>,
                              who: Runner)
  {
    Wanted(start, root, g, stack, who) && LocOf(g, who).Some? && LocOf(g, who).value in calling
  }

  lemma BlameProvider(ts: TypeSystem, start: Graph, root: nat, g: Graph, calling: set<Location>, stack: seq<Runner>)
    ensures Blame(ts, start, root, g, calling, stack, true, ProviderFailed)
  {
    assert Unfold(0) && Fold(0);
  }

  lemma BlameCycle(ts: TypeSystem, start: Graph, root: nat, g: Graph, calling: set<Location>, stack: seq<Runner>,
                   failed: bool, who: Runner)
    requires Stacked(start, root, g, calling, stack) && CalledAgain(start, root, g, calling, stack, who)
    ensures Blame(ts, start, root, g, calling, stack, failed, Cyclic)
  {
    assert Unfold(0) && Fold(0);
  }

  lemma BlameInput(ts: TypeSystem, start: Graph, root: nat, g: Graph, calling: set<Location>, stack: seq<Runner>,
                   failed: bool, input: Input, key: Option<Module>, err: ResolveError)
    requires Stacked(start, root, g, calling, stack) && Asked(g, stack, input, key)
    requires InputFault(ts, g, input, key, err)
    ensures Blame(ts, start, root, g, calling, stack, failed, err)
  {
    assert Unfold(0) && Fold(0);
  }

  /**
   * A chain of dependencies from the root or an invoker to what is wrong: a provider at a location
   * that is on the chain already, or one with an input that cannot be resolved.
   */
  ghost predicate LeadsToFault(ts: TypeSystem, start: Graph, root: nat, g: Graph, chain: seq<Runner>,
                               err: ResolveError)
  {
    && IsPath(Between(start, g), chain) && Origin(root, chain[0])
    && if err == Cyclic then
         exists i :: 0 <= i < |chain| - 1 && LocOf(g, chain[i]) == LocOf(g, chain[|chain| - 1]) != None
       else exists input, key :: Asked(g, chain, input, key) && InputFault(ts, g, input, key, err)
  }

  lemma BlameExplained(ts: TypeSystem, start: Graph, root: nat, g: Graph, calling: set<Location>, stack: seq<Runner>,
                       failed: bool, err: ResolveError)
    requires Blame(ts, start, root, g, calling, stack, failed, err)
    ensures if err == ProviderFailed then failed else exists chain :: LeadsToFault(ts, start, root, g, chain, err)
  {
    assert Unfold(0);
    if err == Cyclic {
      var who :| CalledAgain(start, root, g, calling, stack, who);
      CycleExplained(ts, start, root, g, calling, stack, who);
      assert LeadsToFault(ts, start, root, g, stack + [who], err);
    } else if err != ProviderFailed {
      assert LeadsToFault(ts, start, root, g, stack, err);
    }
  }

  lemma CycleExplained(ts: TypeSystem, start: Graph, root: nat, g: Graph, calling: set<Location>, stack: seq<Runner>,
                       who: Runner)
    requires Stacked(start, root, g, calling, stack) && CalledAgain(start, root, g, calling, stack, who)
    ensures LeadsToFault(ts, start, root, g, stack + [who], Cyclic)
  {
    assert Unfold(0);
    var before :| before in stack && LocOf(g, before) == LocOf(g, who);
    var i :| 0 <= i < |stack| && stack[i] == before;
    PathThen(Between(start, g), stack, who);
    var chain := stack + [who];
    assert chain[i] == before && chain[|chain| - 1] == who;
  }
}
