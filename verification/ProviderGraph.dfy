/** The provider graph of the dependency-injection container (`depinject`). */
module ProviderGraph {
  import opened Hiding
  import opened Options

  type Type = string

  type Module = string

  type Location = nat

  /** Values passed between providers; lists and tables collect the values of several providers. */
  datatype Value =
    | Atom(n: int)
    | List(elems: seq<Value>)
    | Table(entries: map<Module, Value>)
    | ZeroOf(typ: Type)
    | KeyOf(moduleName: Module)

  datatype Input = Input(typ: Type, optional: bool, ignored: bool)

  datatype Provider = Provider(
    loc: Location, inputs: seq<Input>, outputs: seq<Type>, fn: seq<Value> -> Option<seq<Value>>)

  /** A function returns one value for each of its outputs. */
  ghost predicate WellTyped(p: Provider) {
    forall args :: p.fn(args).Some? ==> |p.fn(args).value| == |p.outputs|
  }

  const MODULE_KEY: Type := "ModuleKey"

  const OWN_MODULE_KEY: Type := "OwnModuleKey"

  /** What reflection tells about types. */
  datatype TypeSystem = TypeSystem(
    isMany: Type -> bool,              // many-per-container
    isOnePer: Type -> bool,            // one-per-module
    sliceOf: Type -> Type,
    mapOf: Type -> Type,
    sliceElem: Type -> Option<Type>,
    mapElem: Type -> Option<Type>,
    isInterface: Type -> bool,
    implements: (Type, Type) -> bool)
  {
    predicate IsManySlice(t: Type) {
      sliceElem(t).Some? && isMany(sliceElem(t).value)
    }

    predicate IsOnePerMap(t: Type) {
      mapElem(t).Some? && isOnePer(mapElem(t).value)
    }

    function Elem(t: Type): Type {
      if IsManySlice(t) then sliceElem(t).value else if IsOnePerMap(t) then mapElem(t).value else t
    }

    /** The type under which all values of a many-per-container or one-per-module type are asked for. */
    function CollectedAs(elem: Type): Option<Type> {
      if isMany(elem) then Some(sliceOf(elem)) else if isOnePer(elem) then Some(mapOf(elem)) else None
    }

    /** Slices and maps are unnamed types, interfaces are neither, and a type has one marker at most. */
    ghost predicate Lawful() {
      && (forall t :: sliceElem(t).Some? ==> sliceOf(sliceElem(t).value) == t && !isInterface(t))
      && (forall t :: mapElem(t).Some? ==> mapOf(mapElem(t).value) == t && !isInterface(t))
      && (forall t :: sliceElem(sliceOf(t)) == Some(t) && mapElem(mapOf(t)) == Some(t))
      && (forall t :: sliceElem(t).None? || mapElem(t).None?)
      && (forall t :: isMany(t) || isOnePer(t) ==> !IsManySlice(t) && !IsOnePerMap(t))
      && (forall t :: !(isMany(t) && isOnePer(t)))
    }
  }

  /** How a type is resolved; `typ` is the type that the resolver was made for. */
  datatype Resolver =
    | Simple(node: nat, idx: nat, typ: Type)
    | Scoped(node: nat, idx: nat, typ: Type)
    | GroupElem(elem: Type, typ: Type)
    | GroupSlice(elem: Type, typ: Type)
    | PerModuleElem(elem: Type, typ: Type)
    | PerModuleMap(elem: Type, typ: Type)
    | Supplied(value: Value, typ: Type)

  /** One of the outputs of a registered provider. */
  datatype Output = Output(node: nat, idx: nat)

  /** A registered provider with the module that it was registered in. */
  datatype Node = Node(provider: Provider, moduleKey: Option<Module>)

  datatype Graph = Graph(
    resolvers: map<Type, Resolver>,
    bindings: map<(Type, Option<Module>), Type>,
    simple: seq<Node>,
    scoped: seq<Provider>,
    groups: map<Type, seq<Output>>,
    perModule: map<Type, map<Module, Output>>,
    invokers: seq<Node>)

  /** The providers named by resolvers and groups exist and have that many outputs. */
  ghost predicate WellFormed(g: Graph) {
    && (forall n :: 0 <= n < |g.simple| ==> WellTyped(g.simple[n].provider))
    && (forall n :: 0 <= n < |g.scoped| ==> WellTyped(g.scoped[n]))
    && (forall t :: t in g.resolvers ==> ValidResolver(g, g.resolvers[t]))
    && (forall t, i :: t in g.groups && 0 <= i < |g.groups[t]| ==> ValidOutput(g, g.groups[t][i]))
    && (forall t, m :: t in g.perModule && m in g.perModule[t] ==> ValidOutput(g, g.perModule[t][m]))
  }

  predicate ValidOutput(g: Graph, o: Output) {
    o.node < |g.simple| && o.idx < |g.simple[o.node].provider.outputs|
  }

  predicate ValidResolver(g: Graph, r: Resolver) {
    match r
    case Simple(n, i, _) => ValidOutput(g, Output(n, i))
    case Scoped(n, i, _) => n < |g.scoped| && i < |g.scoped[n].outputs|
    case GroupElem(e, _) => e in g.groups
    case GroupSlice(e, _) => e in g.groups
    case PerModuleElem(e, _) => e in g.perModule
    case PerModuleMap(e, _) => e in g.perModule
    case Supplied(_, _) => true
  }

  /** A resolver that shares the providers of a group or of a table. */
  predicate Grouping(r: Resolver) {
    r.GroupElem? || r.GroupSlice? || r.PerModuleElem? || r.PerModuleMap?
  }

  /** A grouping resolver whose group or table does not exist in `g`. */
  predicate NewGroup(g: Graph, r: Resolver) {
    match r
    case GroupElem(e, _) => e !in g.groups
    case GroupSlice(e, _) => e !in g.groups
    case PerModuleElem(e, _) => e !in g.perModule
    case PerModuleMap(e, _) => e !in g.perModule
    case _ => false
  }

  /** The type has a resolver that was made for it and for nothing else. */
  predicate Own(g: Graph, t: Type) {
    t in g.resolvers && g.resolvers[t].typ == t && !Grouping(g.resolvers[t])
  }

  /**
   * Resolution may register resolvers for new types, with new and empty groups. It keeps what was
   * there, except that a new group may take over a type that had a resolver of its own.
   */
  ghost predicate Grows(g: Graph, g': Graph) {
    && g'.bindings == g.bindings && g'.simple == g.simple && g'.scoped == g.scoped && g'.invokers == g.invokers
    && (forall t :: t in g.resolvers ==> t in g'.resolvers)
    && (forall t :: t in g.resolvers && g'.resolvers[t] != g.resolvers[t] ==> Own(g, t) && NewGroup(g, g'.resolvers[t]))
    && (forall t :: t in g'.resolvers && t !in g.resolvers ==> !Own(g', t))
    && (forall t :: t in g.groups ==> t in g'.groups && g'.groups[t] == g.groups[t])
    && (forall t :: t in g'.groups && t !in g.groups ==> g'.groups[t] == [])
    && (forall t :: t in g.perModule ==> t in g'.perModule && g'.perModule[t] == g.perModule[t])
    && (forall t :: t in g'.perModule && t !in g.perModule ==> g'.perModule[t] == map[])
  }

  lemma GrowsTransitive(g: Graph, g': Graph, g'': Graph)
    requires Grows(g, g') && Grows(g', g'')
    ensures Grows(g, g'')
  {
    forall t | t in g.resolvers && g''.resolvers[t] != g.resolvers[t]
      ensures Own(g, t) && NewGroup(g, g''.resolvers[t])
    {
      if g'.resolvers[t] != g.resolvers[t] {
        assert !Own(g', t);
      }
    }
    forall t | t in g''.resolvers && t !in g.resolvers ensures !Own(g'', t) {
      if t in g'.resolvers {
        assert !Own(g', t);
      }
    }
  }

  /** The resolver of the elements of a group or table, which serves no input. */
  predicate ForElements(r: Resolver) {
    r.GroupElem? || r.PerModuleElem?
  }

  /** Whatever a type was resolved with, it still is, or nothing is any more. */
  ghost predicate Undisturbed(g: Graph, g': Graph) {
    forall z: int {:trigger Unfold(z)} :: Guard(z) ==> exists w: int {:trigger Fold(w)} ::
      Fold(w) && forall t :: t in g.resolvers ==> UndisturbedAt(g, g', t)
  }

  ghost predicate UndisturbedAt(g: Graph, g': Graph, t: Type)
    requires t in g.resolvers
  {
    t in g'.resolvers && (g'.resolvers[t] == g.resolvers[t] || ForElements(g'.resolvers[t]))
  }

  lemma UndisturbedStill(g: Graph, g': Graph)
    requires g'.resolvers == g.resolvers
    ensures Undisturbed(g, g')
  {
    assert Unfold(0) && Fold(0);
  }

  lemma UndisturbedParts(g: Graph, g': Graph, t: Type)
    requires Undisturbed(g, g') && t in g.resolvers
    ensures UndisturbedAt(g, g', t)
  {
    assert Unfold(0);
  }

  lemma UndisturbedTransitive(g: Graph, g': Graph, g'': Graph)
    requires Undisturbed(g, g') && Undisturbed(g', g'')
    ensures Undisturbed(g, g'')
  {
    assert Unfold(0);
    forall t | t in g.resolvers ensures UndisturbedAt(g, g'', t) {
      assert UndisturbedAt(g, g', t) && UndisturbedAt(g', g'', t);
    }
  }

  /** An explicit binding, first of the module and then of the container. */
  function Binding(g: Graph, typ: Type, key: Option<Module>): Option<Type> {
    if (typ, key) in g.bindings then Some(g.bindings[(typ, key)])
    else if (typ, None) in g.bindings then Some(g.bindings[(typ, None)])
    else None
  }

  /** The name under which a type is looked up. */
  function NameOf(g: Graph, typ: Type, key: Option<Module>): Type {
    match Binding(g, typ, key) case Some(impl) => impl case None => typ
  }

  /** The resolver that is registered for a type as seen from a module. */
  function Lookup(g: Graph, typ: Type, key: Option<Module>): Option<Resolver> {
    var name := NameOf(g, typ, key);
    if name in g.resolvers then Some(g.resolvers[name]) else None
  }

  /** What a type resolves to stays, unless a new group takes the type over. */
  lemma LookupStable(g: Graph, g': Graph, typ: Type, key: Option<Module>)
    requires Grows(g, g') && Lookup(g, typ, key).Some?
    ensures Lookup(g', typ, key).Some?
    ensures Lookup(g', typ, key) == Lookup(g, typ, key) ||
            (Own(g, NameOf(g, typ, key)) && NewGroup(g, Lookup(g', typ, key).value))
  {
    assert NameOf(g', typ, key) == NameOf(g, typ, key);
  }

  /** The resolver that is or, before a new group took the type over, was registered for a type. */
  ghost predicate RegisteredFor(g0: Graph, g: Graph, typ: Type, key: Option<Module>, r: Resolver) {
    var now := Lookup(g, typ, key);
    now == Some(r) || (now.Some? && NewGroup(g0, now.value) && Lookup(g0, typ, key) == Some(r))
  }

  lemma RegisteredStable(g0: Graph, g: Graph, g': Graph, typ: Type, key: Option<Module>, r: Resolver)
    requires Grows(g0, g) && Grows(g, g') && RegisteredFor(g0, g, typ, key, r)
    ensures RegisteredFor(g0, g', typ, key, r)
  {
    LookupStable(g, g', typ, key);
    var name := NameOf(g, typ, key);
    assert NameOf(g0, typ, key) == name == NameOf(g', typ, key);
    if Own(g, name) {
      assert name in g0.resolvers && g.resolvers[name] == g0.resolvers[name];
    }
  }

  // ---------------------------------------------------------------------------
  // Memoised values
  // ---------------------------------------------------------------------------

  /** Results of the providers that have run, and the values that resolvers have picked from them. */
  datatype Memo = Memo(
    values: map<nat, seq<Value>>,
    scopedValues: map<(nat, Option<Module>), seq<Value>>,
    picked: map<(Resolver, Option<Module>), Value>)

  ghost predicate MemoGrows(m: Memo, m': Memo) {
    && (forall n :: n in m.values ==> n in m'.values && m'.values[n] == m.values[n])
    && (forall n :: n in m.scopedValues ==> n in m'.scopedValues && m'.scopedValues[n] == m.scopedValues[n])
    && (forall k :: k in m.picked ==> k in m'.picked && m'.picked[k] == m.picked[k])
  }

  function OutputValue(m: Memo, o: Output): Option<Value> {
    if o.node in m.values && o.idx < |m.values[o.node]| then Some(m.values[o.node][o.idx]) else None
  }

  /** The concatenation of the values of a group; a list contributes its elements. */
  function GroupValue(m: Memo, outputs: seq<Output>): Option<seq<Value>> {
    if outputs == [] then Some([])
    else
      var front := GroupValue(m, outputs[..|outputs| - 1]);
      var last := OutputValue(m, outputs[|outputs| - 1]);
      if front.None? || last.None? then None
      else Some(front.value + (if last.value.List? then last.value.elems else [last.value]))
  }

  /** The value that a resolver stands for once its providers have run. */
  ghost function ValueOf(g: Graph, m: Memo, r: Resolver, key: Option<Module>): Option<Value> {
    match r
    case Simple(n, i, _) => OutputValue(m, Output(n, i))
    case Scoped(n, i, _) =>
      if (n, key) in m.scopedValues && i < |m.scopedValues[(n, key)]| then Some(m.scopedValues[(n, key)][i]) else None
    case GroupSlice(e, _) =>
      if e in g.groups && GroupValue(m, g.groups[e]).Some? then Some(List(GroupValue(m, g.groups[e]).value)) else None
    case PerModuleMap(e, _) =>
      if e in g.perModule && (forall k :: k in g.perModule[e] ==> OutputValue(m, g.perModule[e][k]).Some?) then
        Some(Table(map k | k in g.perModule[e] :: OutputValue(m, g.perModule[e][k]).value))
      else None
    case Supplied(v, _) => Some(v)
    case GroupElem(_, _) => None
    case PerModuleElem(_, _) => None
  }

  lemma {:induction false} GroupValueStable(m: Memo, m': Memo, outputs: seq<Output>)
    requires MemoGrows(m, m') && GroupValue(m, outputs).Some?
    ensures GroupValue(m', outputs) == GroupValue(m, outputs)
  {
    if outputs != [] {
      GroupValueStable(m, m', outputs[..|outputs| - 1]);
    }
  }

  lemma ValueStable(g: Graph, g': Graph, m: Memo, m': Memo, r: Resolver, key: Option<Module>)
    requires Grows(g, g') && MemoGrows(m, m') && ValueOf(g, m, r, key).Some?
    ensures ValueOf(g', m', r, key) == ValueOf(g, m, r, key)
  {
    if r.GroupSlice? {
      GroupValueStable(m, m', g.groups[r.elem]);
    } else if r.PerModuleMap? {
      var t := g.perModule[r.elem];
      assert forall k :: k in t ==> OutputValue(m', t[k]) == OutputValue(m, t[k]);
      assert (map k | k in t :: OutputValue(m', t[k]).value) == (map k | k in t :: OutputValue(m, t[k]).value);
    }
  }

  // ---------------------------------------------------------------------------
  // Runs of providers
  // ---------------------------------------------------------------------------

  /** Who ran: a provider, a module-scoped provider on behalf of a module, or an invoker. */
  datatype Runner = SimpleRun(node: nat) | ScopedRun(scoped: nat, forModule: Option<Module>) | InvokerRun(inv: nat)

  /** The runs whose results a resolver needs. */
  ghost function RunsOf(g: Graph, r: Resolver, key: Option<Module>): set<Runner> {
    match r
    case Simple(n, _, _) => {SimpleRun(n)}
    case Scoped(n, _, _) => {ScopedRun(n, key)}
    case GroupSlice(e, _) =>
      if e in g.groups then (set o | o in g.groups[e] :: SimpleRun(o.node)) else {}
    case PerModuleMap(e, _) =>
      if e in g.perModule then (set k | k in g.perModule[e] :: SimpleRun(g.perModule[e][k].node)) else {}
    case _ => {}
  }

  /** A call of a provider: the resolver used for each input, if any, and the arguments. */
  datatype Run = Run(who: Runner, provider: Provider, moduleKey: Option<Module>,
                     used: seq<Option<Resolver>>, args: seq<Value>)

  ghost function Ran(log: seq<Run>): set<Runner> {
    set run | run in log :: run.who
  }

  /**
   * An input that is not resolved is ignored, is a module key, or is optional and was unknown when
   * resolution started with the graph `g0`.
   */
  ghost predicate InputServed(g0: Graph, g: Graph, m: Memo, earlier: set<Runner>, input: Input, key: Option<Module>,
                              used: Option<Resolver>, arg: Value)
  {
    match used
    case None =>
      if input.ignored then arg == ZeroOf(input.typ)
      else if input.typ == MODULE_KEY || input.typ == OWN_MODULE_KEY then key.Some? && arg == KeyOf(key.value)
      else input.optional && Lookup(g0, input.typ, key).None? && arg == ZeroOf(input.typ)
    case Some(r) =>
      && !input.ignored && input.typ != MODULE_KEY && input.typ != OWN_MODULE_KEY
      && RegisteredFor(g0, g, input.typ, key, r)
      && RunsOf(g, r, key) <= earlier
      && ValueOf(g, m, r, key) == Some(arg)
  }

  /** All inputs were served by earlier runs. */
  ghost predicate RunServed(g0: Graph, g: Graph, m: Memo, earlier: set<Runner>, run: Run) {
    && |run.used| == |run.args| == |run.provider.inputs|
    && (forall i :: 0 <= i < |run.args| ==>
          InputServed(g0, g, m, earlier, run.provider.inputs[i], run.moduleKey, run.used[i], run.args[i]))
  }

  /** The run is one of its node's provider. */
  ghost predicate Belongs(g: Graph, run: Run) {
    match run.who
    case SimpleRun(n) =>
      n < |g.simple| && run.provider == g.simple[n].provider && run.moduleKey == g.simple[n].moduleKey
    case ScopedRun(n, key) => n < |g.scoped| && run.provider == g.scoped[n] && run.moduleKey == key
    case InvokerRun(i) =>
      i < |g.invokers| && run.provider == g.invokers[i].provider && run.moduleKey == g.invokers[i].moduleKey
  }

  /** The provider returned what its node has memoised. */
  ghost predicate RunRecorded(m: Memo, run: Run) {
    match run.who
    case SimpleRun(n) => n in m.values && run.provider.fn(run.args) == Some(m.values[n])
    case ScopedRun(n, key) => (n, key) in m.scopedValues && run.provider.fn(run.args) == Some(m.scopedValues[(n, key)])
    case InvokerRun(_) => run.provider.fn(run.args).Some?
  }

  /** Every run happened once, after all runs that it depends on, on exactly the resolved values. */
  ghost predicate LogOk(g0: Graph, g: Graph, m: Memo, log: seq<Run>) {
    && (forall i :: 0 <= i < |log| ==>
          RunServed(g0, g, m, Ran(log[..i]), log[i]) && Belongs(g, log[i]) && RunRecorded(m, log[i]))
    && (forall i, j :: 0 <= i < j < |log| ==> log[i].who != log[j].who)
  }

  /** A provider that returned an error did so once, after all runs that it depends on, on the resolved values. */
  ghost predicate FailureOk(g0: Graph, g: Graph, m: Memo, log: seq<Run>, run: Run) {
    && RunServed(g0, g, m, Ran(log), run) && Belongs(g, run)
    && run.who !in Ran(log) && run.provider.fn(run.args).None?
  }

  /** The memo holds the results of the runs in the log and nothing else. */
  ghost predicate MemoOk(g: Graph, m: Memo, log: seq<Run>) {
    && (forall n :: n in m.values ==> n < |g.simple| && |m.values[n]| == |g.simple[n].provider.outputs|)
    && (forall n :: n in m.values <==> SimpleRun(n) in Ran(log))
    && (forall k :: k in m.scopedValues ==> k.0 < |g.scoped| && |m.scopedValues[k]| == |g.scoped[k.0].outputs|)
    && (forall k :: k in m.scopedValues <==> ScopedRun(k.0, k.1) in Ran(log))
    && (forall k :: k in m.picked ==>
          && ValidResolver(g, k.0)
          && ValueOf(g, m, k.0, k.1) == Some(m.picked[k])
          && RunsOf(g, k.0, k.1) <= Ran(log))
  }

  lemma RanPrefix(log: seq<Run>, log': seq<Run>)
    requires log <= log'
    ensures Ran(log) <= Ran(log')
  {
  }

  lemma RunsStable(g: Graph, g': Graph, r: Resolver, key: Option<Module>)
    requires Grows(g, g') && ValidResolver(g, r)
    ensures RunsOf(g', r, key) == RunsOf(g, r, key)
  {
  }

  lemma RegisteredValid(g0: Graph, g: Graph, typ: Type, key: Option<Module>, r: Resolver)
    requires Grows(g0, g) && WellFormed(g0) && WellFormed(g) && RegisteredFor(g0, g, typ, key, r)
    ensures ValidResolver(g, r)
  {
  }

  lemma InputServedStable(g0: Graph, g: Graph, g': Graph, m: Memo, m': Memo, e: set<Runner>, e': set<Runner>,
                          input: Input, key: Option<Module>, used: Option<Resolver>, arg: Value)
    requires Grows(g0, g) && WellFormed(g0) && WellFormed(g) && Grows(g, g') && MemoGrows(m, m') && e <= e'
    requires InputServed(g0, g, m, e, input, key, used, arg)
    ensures InputServed(g0, g', m', e', input, key, used, arg)
  {
    if used.Some? {
      RegisteredStable(g0, g, g', input.typ, key, used.value);
      RegisteredValid(g0, g, input.typ, key, used.value);
      RunsStable(g, g', used.value, key);
      ValueStable(g, g', m, m', used.value, key);
    }
  }

  lemma ServedStable(g0: Graph, g: Graph, g': Graph, m: Memo, m': Memo, e: set<Runner>, e': set<Runner>, run: Run)
    requires Grows(g0, g) && WellFormed(g0) && WellFormed(g) && Grows(g, g') && MemoGrows(m, m')
    requires e <= e' && RunServed(g0, g, m, e, run)
    ensures RunServed(g0, g', m', e', run)
  {
    forall i | 0 <= i < |run.args|
      ensures InputServed(g0, g', m', e', run.provider.inputs[i], run.moduleKey, run.used[i], run.args[i])
    {
      assert InputServed(g0, g, m, e, run.provider.inputs[i], run.moduleKey, run.used[i], run.args[i]);
      InputServedStable(g0, g, g', m, m', e, e', run.provider.inputs[i], run.moduleKey, run.used[i], run.args[i]);
    }
  }

  lemma LogStable(g0: Graph, g: Graph, g': Graph, m: Memo, m': Memo, log: seq<Run>)
    requires Grows(g0, g) && WellFormed(g0) && WellFormed(g) && Grows(g, g') && MemoGrows(m, m') && LogOk(g0, g, m, log)
    ensures LogOk(g0, g', m', log)
  {
    forall i | 0 <= i < |log|
      ensures RunServed(g0, g', m', Ran(log[..i]), log[i]) && Belongs(g', log[i]) && RunRecorded(m', log[i])
    {
      ServedStable(g0, g, g', m, m', Ran(log[..i]), Ran(log[..i]), log[i]);
    }
  }

  // ---------------------------------------------------------------------------
  // No cycles
  // ---------------------------------------------------------------------------

  /** The provider and the module of a run, as registered in the graph. */
  ghost function Registered(g: Graph, who: Runner): Option<(Provider, Option<Module>)> {
    match who
    case SimpleRun(n) => if n < |g.simple| then Some((g.simple[n].provider, g.simple[n].moduleKey)) else None
    case ScopedRun(n, key) => if n < |g.scoped| then Some((g.scoped[n], key)) else None
    case InvokerRun(i) => if i < |g.invokers| then Some((g.invokers[i].provider, g.invokers[i].moduleKey)) else None
  }

  /** The input is resolved in the graph by running `dep`; an optional one counts if it was known in `g0`. */
  ghost predicate Feeds(g0: Graph, g: Graph, input: Input, key: Option<Module>, dep: Runner) {
    && !input.ignored && input.typ != MODULE_KEY && input.typ != OWN_MODULE_KEY
    && Lookup(g, input.typ, key).Some?
    && (input.optional ==> Lookup(g0, input.typ, key).Some?)
    && dep in RunsOf(g, Lookup(g, input.typ, key).value, key)
  }

  /** The graphs of a build: as it was given, when resolution started, and at the end with all implicit bindings. */
  datatype Stages = Stages(given: Graph, start: Graph, end: Graph)

  /** An edge of the provider graph, as it was given or has become: some input of `who` is resolved by running `dep`. */
  ghost predicate Edge(st: Stages, who: Runner, dep: Runner) {
    && Registered(st.end, who).Some?
    && var (provider, key) := Registered(st.end, who).value;
       exists i :: 0 <= i < |provider.inputs| && EitherFeeds(st, provider.inputs[i], key, dep)
  }

  ghost predicate EitherFeeds(st: Stages, input: Input, key: Option<Module>, dep: Runner) {
    Feeds(st.start, st.end, input, key, dep) || Feeds(st.given, st.given, input, key, dep)
  }

  ghost predicate IsPath(st: Stages, path: seq<Runner>) {
    path != [] && forall i :: 0 <= i < |path| - 1 ==> Edge(st, path[i], path[i + 1])
  }

  /** Providers, groups and tables that were given are still there. */
  ghost predicate Extends(g: Graph, g': Graph) {
    && g'.bindings == g.bindings && g.simple <= g'.simple && g.scoped <= g'.scoped && g'.invokers == g.invokers
    && (forall e :: e in g.groups ==> e in g'.groups && g.groups[e] <= g'.groups[e])
    && (forall e :: e in g.perModule ==> e in g'.perModule && TableGrows(g.perModule[e], g'.perModule[e]))
  }

  ghost predicate TableGrows(t: map<Module, Output>, t': map<Module, Output>) {
    forall m :: m in t ==> m in t' && t'[m] == t[m]
  }

  /** How the stages of a build follow one another. */
  ghost predicate Staged(st: Stages) {
    && WellFormed(st.given) && WellFormed(st.end)
    && Extends(st.given, st.start) && Undisturbed(st.given, st.start)
    && Grows(st.start, st.end) && Undisturbed(st.start, st.end)
  }

  /** A group that was made during resolution has no providers. */
  lemma NewGroupIsEmpty(g0: Graph, g: Graph, r: Resolver, key: Option<Module>)
    requires Grows(g0, g) && ValidResolver(g, r) && NewGroup(g0, r)
    ensures RunsOf(g, r, key) == {}
  {
  }

  lemma FeedIsEarlier(g0: Graph, g: Graph, m: Memo, earlier: set<Runner>, input: Input, key: Option<Module>,
                      used: Option<Resolver>, arg: Value, dep: Runner)
    requires WellFormed(g) && Grows(g0, g) && InputServed(g0, g, m, earlier, input, key, used, arg)
    requires Feeds(g0, g, input, key, dep)
    ensures dep in earlier
  {
    var now := Lookup(g, input.typ, key).value;
    if NewGroup(g0, now) {
      NewGroupIsEmpty(g0, g, now, key);
    }
  }

  lemma MoreRuns(g: Graph, g': Graph, r: Resolver, key: Option<Module>)
    requires Extends(g, g') && ValidResolver(g, r)
    ensures RunsOf(g, r, key) <= RunsOf(g', r, key)
  {
    if r.GroupSlice? {
      assert forall o :: o in g.groups[r.elem] ==> o in g'.groups[r.elem];
    }
  }

  /** What an input would have run in the graph as it was given, it has run. */
  lemma GivenFeedIsEarlier(st: Stages, m: Memo, earlier: set<Runner>, input: Input, key: Option<Module>,
                           used: Option<Resolver>, arg: Value, dep: Runner)
    requires Staged(st) && InputServed(st.start, st.end, m, earlier, input, key, used, arg)
    requires Feeds(st.given, st.given, input, key, dep)
    ensures dep in earlier
  {
    UsedAsGiven(st, m, earlier, input, key, used, arg);
    var first := used.value;
    assert ValidResolver(st.given, first);
    MoreRuns(st.given, st.start, first, key);
    RunsStable(st.start, st.end, first, key);
  }

  /** An input is resolved with what its type was registered with, if it was. */
  lemma UsedAsGiven(st: Stages, m: Memo, earlier: set<Runner>, input: Input, key: Option<Module>,
                    used: Option<Resolver>, arg: Value)
    requires st.start.bindings == st.given.bindings && st.end.bindings == st.start.bindings
    requires Undisturbed(st.given, st.start) && Undisturbed(st.start, st.end)
    requires InputServed(st.start, st.end, m, earlier, input, key, used, arg)
    requires !input.ignored && input.typ != MODULE_KEY && input.typ != OWN_MODULE_KEY
    requires Lookup(st.given, input.typ, key).Some?
    ensures used == Lookup(st.given, input.typ, key) && RunsOf(st.end, used.value, key) <= earlier
  {
    var name := NameOf(st.given, input.typ, key);
    assert name == NameOf(st.start, input.typ, key) == NameOf(st.end, input.typ, key);
    UndisturbedParts(st.given, st.start, name);
    UndisturbedParts(st.start, st.end, name);
  }

  /** Whatever a logged run depends on was logged before it. */
  lemma EdgeIsEarlier(st: Stages, m: Memo, log: seq<Run>, i: nat, dep: Runner) returns (j: nat)
    requires Staged(st) && LogOk(st.start, st.end, m, log) && i < |log| && Edge(st, log[i].who, dep)
    ensures j < i && log[j].who == dep
  {
    var run, earlier := log[i], Ran(log[..i]);
    var (provider, key) := Registered(st.end, run.who).value;
    var k :| 0 <= k < |provider.inputs| && EitherFeeds(st, provider.inputs[k], key, dep);
    assert RunServed(st.start, st.end, m, earlier, run) && Belongs(st.end, run);
    if Feeds(st.start, st.end, provider.inputs[k], key, dep) {
      FeedIsEarlier(st.start, st.end, m, earlier, provider.inputs[k], key, run.used[k], run.args[k], dep);
    } else {
      GivenFeedIsEarlier(st, m, earlier, provider.inputs[k], key, run.used[k], run.args[k], dep);
    }
    j := Position(log[..i], dep);
  }

  lemma Position(log: seq<Run>, who: Runner) returns (j: nat)
    requires who in Ran(log)
    ensures j < |log| && log[j].who == who
  {
    var run :| run in log && run.who == who;
    j :| 0 <= j < |log| && log[j] == run;
  }

  /** A path from a logged run stays in the log and moves towards its beginning. */
  lemma {:induction false} PathDescends(st: Stages, m: Memo, log: seq<Run>, path: seq<Runner>, i: nat) returns (j: nat)
    requires Staged(st) && LogOk(st.start, st.end, m, log) && IsPath(st, path)
    requires i < |log| && log[i].who == path[0]
    ensures j <= i && log[j].who == path[|path| - 1] && (|path| > 1 ==> j < i)
    decreases |path|
  {
    j := i;
    if |path| > 1 {
      assert Edge(st, path[0], path[1]);
      var next := EdgeIsEarlier(st, m, log, i, path[1]);
      PathTail(st, path);
      j := PathDescends(st, m, log, path[1..], next);
    }
  }

  lemma PathTail(st: Stages, path: seq<Runner>)
    requires IsPath(st, path) && |path| > 1
    ensures IsPath(st, path[1..])
  {
    var rest := path[1..];
    forall k | 0 <= k < |rest| - 1 ensures Edge(st, rest[k], rest[k + 1]) {
      assert Edge(st, path[k + 1], path[k + 2]);
    }
  }

  /** No cycle of the provider graph can be reached from a run that was logged. */
  lemma NoReachableCycle(st: Stages, m: Memo, log: seq<Run>, path: seq<Runner>, cycle: seq<Runner>)
    requires Staged(st) && LogOk(st.start, st.end, m, log) && Closes(st, path, cycle)
    ensures path[0] !in Ran(log)
  {
    if path[0] in Ran(log) {
      var i := Position(log, path[0]);
      var j := PathDescends(st, m, log, path, i);
      var k := PathDescends(st, m, log, cycle, j);
    }
  }

  /** The path leads to a provider that depends, through a chain of others, on itself. */
  ghost predicate Closes(st: Stages, path: seq<Runner>, cycle: seq<Runner>) {
    && IsPath(st, path) && IsPath(st, cycle) && |cycle| > 1
    && cycle[0] == path[|path| - 1] && cycle[|cycle| - 1] == cycle[0]
  }

  /** No provider that can be reached from `root` depends, through any chain, on itself. */
  ghost predicate Acyclic(st: Stages, root: Runner) {
    forall path, cycle :: Closes(st, path, cycle) ==> path[0] != root
  }

  // ---------------------------------------------------------------------------
  // Cycles of a container as it was given
  // ---------------------------------------------------------------------------

  /** The graph on its own. */
  function Alone(g: Graph): Stages {
    Stages(g, g, g)
  }

  /** Resolving one of the wanted outputs leads to a cycle. */
  ghost predicate LeadsToCycle(g: Graph, outputs: seq<Input>) {
    exists i, path, cycle :: 0 <= i < |outputs| && LeadsTo(g, outputs[i], path, cycle)
  }

  ghost predicate LeadsTo(g: Graph, output: Input, path: seq<Runner>, cycle: seq<Runner>) {
    Closes(Alone(g), path, cycle) && Feeds(g, g, output, None, path[0])
  }

  lemma GivenEdge(st: Stages, who: Runner, dep: Runner)
    requires Staged(st) && Edge(Alone(st.given), who, dep)
    ensures Edge(st, who, dep)
  {
    var (provider, key) := Registered(st.given, who).value;
    assert Registered(st.end, who) == Some((provider, key));
    var i :| 0 <= i < |provider.inputs| && EitherFeeds(Alone(st.given), provider.inputs[i], key, dep);
    assert EitherFeeds(st, provider.inputs[i], key, dep);
  }

  lemma GivenPath(st: Stages, path: seq<Runner>)
    requires Staged(st) && IsPath(Alone(st.given), path)
    ensures IsPath(st, path)
  {
    forall i | 0 <= i < |path| - 1 ensures Edge(st, path[i], path[i + 1]) {
      assert Edge(Alone(st.given), path[i], path[i + 1]);
      GivenEdge(st, path[i], path[i + 1]);
    }
  }

  /** A cycle of the given graph can be reached from a root whose inputs are the wanted outputs. */
  lemma GivenCycle(st: Stages, root: nat, outputs: seq<Input>) returns (path: seq<Runner>, cycle: seq<Runner>)
    requires Staged(st) && LeadsToCycle(st.given, outputs)
    requires root < |st.end.simple| && st.end.simple[root].provider.inputs == outputs
    requires st.end.simple[root].moduleKey.None?
    ensures Closes(st, path, cycle) && path[0] == SimpleRun(root)
  {
    var i, rest, c :| 0 <= i < |outputs| && LeadsTo(st.given, outputs[i], rest, c);
    GivenPath(st, rest);
    GivenPath(st, c);
    var provider := st.end.simple[root].provider;
    assert Registered(st.end, SimpleRun(root)) == Some((provider, None));
    assert EitherFeeds(st, provider.inputs[i], None, rest[0]);
    assert Edge(st, SimpleRun(root), rest[0]);
    PathFrom(st, SimpleRun(root), rest);
    path, cycle := [SimpleRun(root)] + rest, c;
  }

  /** A root without cycles means that none of its inputs led to a cycle. */
  lemma NoGivenCycle(st: Stages, root: nat, outputs: seq<Input>)
    requires Staged(st) && Acyclic(st, SimpleRun(root))
    requires root < |st.end.simple| && st.end.simple[root].provider.inputs == outputs
    requires st.end.simple[root].moduleKey.None?
    ensures !LeadsToCycle(st.given, outputs)
  {
    if LeadsToCycle(st.given, outputs) {
      var path, cycle := GivenCycle(st, root, outputs);
    }
  }

  lemma PathFrom(st: Stages, who: Runner, path: seq<Runner>)
    requires IsPath(st, path) && Edge(st, who, path[0])
    ensures IsPath(st, [who] + path)
  {
    var longer := [who] + path;
    forall i | 0 <= i < |longer| - 1 ensures Edge(st, longer[i], longer[i + 1]) {
      if i > 0 {
        assert Edge(st, path[i - 1], path[i]);
      }
    }
  }
}
