/** What the arguments of a provider are, said in terms of bindings, registered resolvers and earlier runs alone. */
module Arguments {
  import opened ProviderGraph
  import opened Options

  /** An earlier run returned this value as its i-th result. */
  ghost predicate Gave(earlier: seq<Run>, who: Runner, i: nat, v: Value) {
    exists run :: run in earlier && run.who == who && Returned(run, i, v)
  }

  ghost predicate Returned(run: Run, i: nat, v: Value) {
    var results := run.provider.fn(run.args);
    results.Some? && i < |results.value| && results.value[i] == v
  }

  /** The name that a type is bound to: by its module if it is, else by the container if it is, else its own. */
  ghost predicate BoundTo(g: Graph, typ: Type, key: Option<Module>, name: Type) {
    && ((typ, key) in g.bindings ==> name == g.bindings[(typ, key)])
    && ((typ, key) !in g.bindings && (typ, None) in g.bindings ==> name == g.bindings[(typ, None)])
    && ((typ, key) !in g.bindings && (typ, None) !in g.bindings ==> name == typ)
  }

  /** Where in a list the parts that it is made of begin. */
  ghost predicate MadeOf(list: seq<Value>, parts: seq<Value>, starts: seq<nat>) {
    && |starts| == |parts| + 1 && starts[0] == 0 && starts[|parts|] == |list|
    && forall j :: 0 <= j < |parts| ==> PartAt(list, parts, starts, j)
  }

  /** A list contributes its elements, any other value itself. */
  ghost predicate PartAt(list: seq<Value>, parts: seq<Value>, starts: seq<nat>, j: nat)
    requires j < |parts| && |starts| == |parts| + 1
  {
    && starts[j] <= starts[j + 1] <= |list|
    && list[starts[j]..starts[j + 1]] == if parts[j].List? then parts[j].elems else [parts[j]]
  }

  /** What a resolver stands for, after the runs in `earlier`. */
  ghost predicate Yields(g: Graph, earlier: seq<Run>, r: Resolver, key: Option<Module>, v: Value) {
    match r
    case Simple(n, i, _) => Gave(earlier, SimpleRun(n), i, v)
    case Scoped(n, i, _) => Gave(earlier, ScopedRun(n, key), i, v)
    case GroupSlice(e, _) =>
      e in g.groups && v.List? && exists parts, starts :: Gathers(g.groups[e], earlier, v.elems, parts, starts)
    case PerModuleMap(e, _) => e in g.perModule && v.Table? && Tabulates(g.perModule[e], earlier, v.entries)
    case Supplied(w, _) => v == w
    case _ => false
  }

  /** The results of all outputs of a group, one after the other. */
  ghost predicate Gathers(group: seq<Output>, earlier: seq<Run>, list: seq<Value>, parts: seq<Value>,
                          starts: seq<nat>)
  {
    && |parts| == |group| && MadeOf(list, parts, starts)
    && forall j :: 0 <= j < |group| ==> Gave(earlier, SimpleRun(group[j].node), group[j].idx, parts[j])
  }

  ghost predicate Tabulates(table: map<Module, Output>, earlier: seq<Run>, entries: map<Module, Value>) {
    && entries.Keys == table.Keys
    && forall k :: k in table ==> Gave(earlier, SimpleRun(table[k].node), table[k].idx, entries[k])
  }

  /** The argument for an input is what the name of its type stands for. */
  ghost predicate Explained(g0: Graph, g: Graph, earlier: seq<Run>, input: Input, key: Option<Module>, arg: Value) {
    if input.ignored then arg == ZeroOf(input.typ)
    else if input.typ == MODULE_KEY || input.typ == OWN_MODULE_KEY then key.Some? && arg == KeyOf(key.value)
    else exists name :: BoundTo(g, input.typ, key, name) && StandsFor(g0, g, earlier, input, key, name, arg)
  }

  /**
   * Optional inputs whose name was not registered when resolution began are left out. A name that a new group has
   * taken over stands for what it was registered with before.
   */
  ghost predicate StandsFor(g0: Graph, g: Graph, earlier: seq<Run>, input: Input, key: Option<Module>, name: Type,
                            arg: Value)
  {
    || (input.optional && name !in g0.resolvers && arg == ZeroOf(input.typ))
    || (name in g.resolvers && Yields(g, earlier, g.resolvers[name], key, arg))
    || (&& name in g0.resolvers && name in g.resolvers && NewGroup(g0, g.resolvers[name])
        && Yields(g, earlier, g0.resolvers[name], key, arg))
  }

  /** A provider and what it was called on. */
  ghost predicate RunExplained(g0: Graph, g: Graph, earlier: seq<Run>, run: Run) {
    && Belongs(g, run) && |run.args| == |run.provider.inputs|
    && forall k :: 0 <= k < |run.args| ==> Explained(g0, g, earlier, run.provider.inputs[k], run.moduleKey, run.args[k])
  }

  lemma SimpleGave(g0: Graph, g: Graph, m: Memo, log: seq<Run>, i: nat, n: nat, idx: nat)
    requires LogOk(g0, g, m, log) && i <= |log| && SimpleRun(n) in Ran(log[..i])
    requires n in m.values && idx < |m.values[n]|
    ensures Gave(log[..i], SimpleRun(n), idx, m.values[n][idx])
  {
    var j := Position(log[..i], SimpleRun(n));
    assert RunRecorded(m, log[j]) && log[..i][j] == log[j];
    assert Returned(log[j], idx, m.values[n][idx]);
  }

  lemma ScopedGave(g0: Graph, g: Graph, m: Memo, log: seq<Run>, i: nat, n: nat, key: Option<Module>, idx: nat)
    requires LogOk(g0, g, m, log) && i <= |log| && ScopedRun(n, key) in Ran(log[..i])
    requires (n, key) in m.scopedValues && idx < |m.scopedValues[(n, key)]|
    ensures Gave(log[..i], ScopedRun(n, key), idx, m.scopedValues[(n, key)][idx])
  {
    var j := Position(log[..i], ScopedRun(n, key));
    assert RunRecorded(m, log[j]) && log[..i][j] == log[j];
    assert Returned(log[j], idx, m.scopedValues[(n, key)][idx]);
  }

  /** The list of a group by positions. */
  lemma {:induction false} GroupByPositions(m: Memo, group: seq<Output>) returns (parts: seq<Value>, starts: seq<nat>)
    requires GroupValue(m, group).Some?
    ensures |parts| == |group| && MadeOf(GroupValue(m, group).value, parts, starts)
    ensures forall j :: 0 <= j < |group| ==> OutputValue(m, group[j]) == Some(parts[j])
  {
    if group == [] {
      parts, starts := [], [0];
    } else {
      var n := |group| - 1;
      var front := GroupValue(m, group[..n]).value;
      var parts0, starts0 := GroupByPositions(m, group[..n]);
      var last, list := OutputValue(m, group[n]).value, GroupValue(m, group).value;
      parts, starts := parts0 + [last], starts0 + [|list|];
      MadeOfMore(front, parts0, starts0, last, list);
      forall j | 0 <= j < |group| ensures OutputValue(m, group[j]) == Some(parts[j]) {
        assert j < n ==> OutputValue(m, group[..n][j]) == Some(parts0[j]);
      }
    }
  }

  lemma MadeOfMore(front: seq<Value>, parts: seq<Value>, starts: seq<nat>, last: Value, list: seq<Value>)
    requires MadeOf(front, parts, starts) && list == front + if last.List? then last.elems else [last]
    ensures MadeOf(list, parts + [last], starts + [|list|])
  {
    var n, parts', starts' := |parts|, parts + [last], starts + [|list|];
    forall j | 0 <= j < n + 1 ensures PartAt(list, parts', starts', j) {
      if j < n {
        assert PartAt(front, parts, starts, j);
        assert list[starts[j]..starts[j + 1]] == front[starts[j]..starts[j + 1]];
      }
    }
  }

  /** What a resolver stands for was returned by earlier runs. */
  lemma ValueGiven(g0: Graph, g: Graph, m: Memo, log: seq<Run>, i: nat, r: Resolver, key: Option<Module>, v: Value)
    requires LogOk(g0, g, m, log) && i <= |log|
    requires RunsOf(g, r, key) <= Ran(log[..i]) && ValueOf(g, m, r, key) == Some(v)
    ensures Yields(g, log[..i], r, key, v)
  {
    match r {
      case Simple(n, idx, _) => SimpleGave(g0, g, m, log, i, n, idx);
      case Scoped(n, idx, _) => ScopedGave(g0, g, m, log, i, n, key, idx);
      case GroupSlice(e, _) =>
        var group := g.groups[e];
        var parts, starts := GroupByPositions(m, group);
        forall j | 0 <= j < |group| ensures Gave(log[..i], SimpleRun(group[j].node), group[j].idx, parts[j]) {
          assert group[j] in group && OutputValue(m, group[j]) == Some(parts[j]);
          SimpleGave(g0, g, m, log, i, group[j].node, group[j].idx);
        }
        assert Gathers(group, log[..i], v.elems, parts, starts);
      case PerModuleMap(e, _) =>
        var table := g.perModule[e];
        forall k | k in table ensures Gave(log[..i], SimpleRun(table[k].node), table[k].idx, v.entries[k]) {
          SimpleGave(g0, g, m, log, i, table[k].node, table[k].idx);
        }
      case _ =>
    }
  }

  lemma ArgumentExplained(g0: Graph, g: Graph, m: Memo, log: seq<Run>, i: nat, k: nat)
    requires LogOk(g0, g, m, log) && Grows(g0, g) && i < |log| && k < |log[i].args| == |log[i].provider.inputs|
    ensures Explained(g0, g, log[..i], log[i].provider.inputs[k], log[i].moduleKey, log[i].args[k])
  {
    var run, earlier := log[i], Ran(log[..i]);
    assert RunServed(g0, g, m, earlier, run);
    var input, key, used, arg := run.provider.inputs[k], run.moduleKey, run.used[k], run.args[k];
    assert InputServed(g0, g, m, earlier, input, key, used, arg);
    if !input.ignored && input.typ != MODULE_KEY && input.typ != OWN_MODULE_KEY {
      var name := NameOf(g, input.typ, key);
      assert NameOf(g0, input.typ, key) == name && BoundTo(g, input.typ, key, name);
      if used.Some? {
        ValueGiven(g0, g, m, log, i, used.value, key, arg);
      }
      assert StandsFor(g0, g, log[..i], input, key, name, arg);
    }
  }

  /**
   * Every provider that ran was called on what the names of its input types stand for, the module's bindings
   * before those of the container: results that earlier runs returned, or supplied values.
   */
  lemma LogExplained(g0: Graph, g: Graph, m: Memo, log: seq<Run>)
    requires LogOk(g0, g, m, log) && Grows(g0, g)
    ensures forall i :: 0 <= i < |log| ==> RunExplained(g0, g, log[..i], log[i])
  {
    forall i | 0 <= i < |log| ensures RunExplained(g0, g, log[..i], log[i]) {
      assert RunServed(g0, g, m, Ran(log[..i]), log[i]) && Belongs(g, log[i]);
      forall k | 0 <= k < |log[i].args|
        ensures Explained(g0, g, log[..i], log[i].provider.inputs[k], log[i].moduleKey, log[i].args[k])
      {
        ArgumentExplained(g0, g, m, log, i, k);
      }
    }
  }
}
