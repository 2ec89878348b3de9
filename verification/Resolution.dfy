/** What resolution keeps true of the graph, the memo and the log of provider runs. */
module Resolution {
  import opened ProviderGraph
  import opened Hiding
  import opened Options

  /** The state of a container whose resolution started with the graph `g0`. */
  ghost predicate StateOk(g0: Graph, g: Graph, m: Memo, log: seq<Run>) {
    forall z: int {:trigger Unfold(z)} :: Guard(z) ==> exists w: int {:trigger Fold(w)} ::
      Fold(w) && WellFormed(g0) && WellFormed(g) && Grows(g0, g) && LogOk(g0, g, m, log) && MemoOk(g, m, log)
  }

  lemma StateParts(g0: Graph, g: Graph, m: Memo, log: seq<Run>)
    requires StateOk(g0, g, m, log)
    ensures WellFormed(g0) && WellFormed(g) && Grows(g0, g) && LogOk(g0, g, m, log) && MemoOk(g, m, log)
  {
    assert Unfold(0);
  }

  lemma StateWhole(g0: Graph, g: Graph, m: Memo, log: seq<Run>)
    requires WellFormed(g0) && WellFormed(g) && Grows(g0, g) && LogOk(g0, g, m, log) && MemoOk(g, m, log)
    ensures StateOk(g0, g, m, log)
  {
    assert Unfold(0) && Fold(0);
  }

  /** New runs are appended to the log; none of them is an invoker or a provider that is being called. */
  ghost predicate Avoids(log: seq<Run>, log': seq<Run>, calling: set<Location>) {
    log <= log' && forall i :: |log| <= i < |log'| ==> log'[i].provider.loc !in calling && !log'[i].who.InvokerRun?
  }

  ghost predicate Advances(g: Graph, m: Memo, log: seq<Run>, g': Graph, m': Memo, log': seq<Run>,
                           calling: set<Location>)
  {
    forall z: int {:trigger Unfold(z)} :: Guard(z) ==> exists w: int {:trigger Fold(w)} ::
      Fold(w) && Grows(g, g') && MemoGrows(m, m') && Avoids(log, log', calling)
  }

  lemma AdvancesParts(g: Graph, m: Memo, log: seq<Run>, g': Graph, m': Memo, log': seq<Run>, calling: set<Location>)
    requires Advances(g, m, log, g', m', log', calling)
    ensures Grows(g, g') && MemoGrows(m, m') && Avoids(log, log', calling) && Ran(log) <= Ran(log')
  {
    assert Unfold(0);
    RanPrefix(log, log');
  }

  lemma AdvancesGroup(g: Graph, m: Memo, log: seq<Run>, g': Graph, m': Memo, log': seq<Run>, calling: set<Location>,
                      e: Type)
    requires Advances(g, m, log, g', m', log', calling)
    ensures e in g.groups ==> e in g'.groups && g'.groups[e] == g.groups[e]
    ensures e in g.perModule ==> e in g'.perModule && g'.perModule[e] == g.perModule[e]
    ensures g'.simple == g.simple
  {
    assert Unfold(0);
  }

  lemma AdvancesWhole(g: Graph, m: Memo, log: seq<Run>, g': Graph, m': Memo, log': seq<Run>, calling: set<Location>)
    requires Grows(g, g') && MemoGrows(m, m') && Avoids(log, log', calling)
    ensures Advances(g, m, log, g', m', log', calling)
  {
    assert Unfold(0) && Fold(0);
  }

  lemma AdvancesTransitive(g: Graph, m: Memo, log: seq<Run>, g': Graph, m': Memo, log': seq<Run>,
                           g'': Graph, m'': Memo, log'': seq<Run>, calling: set<Location>, calling': set<Location>)
    requires Advances(g, m, log, g', m', log', calling) && Advances(g', m', log', g'', m'', log'', calling')
    requires calling <= calling'
    ensures Advances(g, m, log, g'', m'', log'', calling)
  {
    AdvancesParts(g, m, log, g', m', log', calling);
    AdvancesParts(g', m', log', g'', m'', log'', calling');
    GrowsTransitive(g, g', g'');
    forall i | |log| <= i < |log''| ensures log''[i].provider.loc !in calling && !log''[i].who.InvokerRun? {
      if i < |log'| {
        assert log''[i] == log'[i];
      }
    }
    AdvancesWhole(g, m, log, g'', m'', log'', calling);
  }

  lemma AdvancesStill(g: Graph, m: Memo, log: seq<Run>, calling: set<Location>)
    ensures Advances(g, m, log, g, m, log, calling)
  {
    assert Unfold(0) && Fold(0);
  }

  /** Registering resolvers for new types disturbs nothing. */
  lemma GrowOk(g0: Graph, g: Graph, g': Graph, m: Memo, log: seq<Run>, calling: set<Location>)
    requires StateOk(g0, g, m, log) && WellFormed(g') && Grows(g, g')
    ensures StateOk(g0, g', m, log) && Advances(g, m, log, g', m, log, calling)
  {
    StateParts(g0, g, m, log);
    LogStable(g0, g, g', m, m, log);
    GrowMemoOk(g, g', m, log);
    GrowsTransitive(g0, g, g');
    StateWhole(g0, g', m, log);
    AdvancesWhole(g, m, log, g', m, log, calling);
  }

  lemma GrowMemoOk(g: Graph, g': Graph, m: Memo, log: seq<Run>)
    requires MemoOk(g, m, log) && Grows(g, g')
    ensures MemoOk(g', m, log)
  {
    forall k | k in m.picked
      ensures ValueOf(g', m, k.0, k.1) == Some(m.picked[k])
      ensures RunsOf(g', k.0, k.1) <= Ran(log) && ValidResolver(g', k.0)
    {
      ValueStable(g, g', m, m, k.0, k.1);
      RunsStable(g, g', k.0, k.1);
    }
  }

  // ---------------------------------------------------------------------------
  // Appending runs to the log
  // ---------------------------------------------------------------------------

  /** A run whose inputs are served by the present state. */
  ghost predicate ServedNow(g0: Graph, g: Graph, m: Memo, log: seq<Run>, run: Run) {
    forall z: int {:trigger Unfold(z)} :: Guard(z) ==> exists w: int {:trigger Fold(w)} ::
      Fold(w) && RunServed(g0, g, m, Ran(log), run)
  }

  lemma RanAppend(log: seq<Run>, run: Run)
    ensures Ran(log + [run]) == Ran(log) + {run.who}
  {
    assert run in log + [run];
    forall r | r in log ensures r in log + [run] {
    }
  }

  lemma AppendOk(g0: Graph, g: Graph, m: Memo, m': Memo, log: seq<Run>, run: Run)
    requires WellFormed(g0) && Grows(g0, g) && WellFormed(g) && LogOk(g0, g, m, log) && MemoGrows(m, m')
    requires RunServed(g0, g, m, Ran(log), run) && run.who !in Ran(log) && Belongs(g, run) && RunRecorded(m', run)
    ensures LogOk(g0, g, m', log + [run])
  {
    LogStable(g0, g, g, m, m', log);
    ServedStable(g0, g, g, m, m', Ran(log), Ran(log), run);
    var log' := log + [run];
    forall i | 0 <= i < |log'|
      ensures RunServed(g0, g, m', Ran(log'[..i]), log'[i]) && Belongs(g, log'[i]) && RunRecorded(m', log'[i])
    {
      if i < |log| {
        assert log'[..i] == log[..i];
      } else {
        assert log'[..i] == log;
      }
    }
    forall i, j | 0 <= i < j < |log'| ensures log'[i].who != log'[j].who {
      if j == |log| {
        assert log[i] in log;
        assert log[i].who in Ran(log);
      }
    }
  }

  /** A provider that is being called does not run again while its inputs are resolved. */
  lemma NotRunMeanwhile(g0: Graph, g: Graph, m: Memo, log: seq<Run>, log': seq<Run>, calling: set<Location>,
                        who: Runner)
    requires LogOk(g0, g, m, log') && Avoids(log, log', calling) && who !in Ran(log)
    requires Registered(g, who).Some? && Registered(g, who).value.0.loc in calling
    ensures who !in Ran(log')
  {
    forall i | 0 <= i < |log'| ensures log'[i].who != who {
      assert Belongs(g, log'[i]);
      if i < |log| {
        assert log'[i] == log[i] && log[i] in log;
        assert log[i].who in Ran(log);
      }
    }
  }

  lemma PickedStable(g: Graph, m: Memo, m': Memo, log: seq<Run>, log': seq<Run>)
    requires MemoOk(g, m, log) && MemoGrows(m, m') && log <= log'
    ensures forall k :: k in m.picked ==>
              ValueOf(g, m', k.0, k.1) == Some(m.picked[k]) && RunsOf(g, k.0, k.1) <= Ran(log')
  {
    RanPrefix(log, log');
    forall k | k in m.picked ensures ValueOf(g, m', k.0, k.1) == Some(m.picked[k]) {
      ValueStable(g, g, m, m', k.0, k.1);
    }
  }

  lemma AvoidsAppend(log: seq<Run>, log': seq<Run>, calling: set<Location>, run: Run)
    requires Avoids(log, log', calling + {run.provider.loc}) && run.provider.loc !in calling && !run.who.InvokerRun?
    ensures Avoids(log, log' + [run], calling)
  {
  }

  function WithValues(m: Memo, n: nat, vs: seq<Value>): Memo {
    m.(values := m.values[n := vs])
  }

  lemma SimpleMemoOk(g: Graph, m: Memo, log: seq<Run>, log': seq<Run>, n: nat, vs: seq<Value>)
    requires MemoOk(g, m, log) && log <= log' && Ran(log') == Ran(log) + {SimpleRun(n)}
    requires n < |g.simple| && n !in m.values && |vs| == |g.simple[n].provider.outputs|
    ensures MemoGrows(m, WithValues(m, n, vs)) && MemoOk(g, WithValues(m, n, vs), log')
    ensures n in WithValues(m, n, vs).values && WithValues(m, n, vs).values[n] == vs
  {
    PickedStable(g, m, WithValues(m, n, vs), log, log');
  }

  /** A run that was called from the state `(g, m, log)` is logged and its result is noted in `m''`. */
  lemma RunOk(g0: Graph, g: Graph, m: Memo, log: seq<Run>, g': Graph, m': Memo, log': seq<Run>,
              calling: set<Location>, run: Run, m'': Memo)
    requires StateOk(g0, g', m', log') && run.who !in Ran(log') && Belongs(g', run) && !run.who.InvokerRun?
    requires Advances(g, m, log, g', m', log', calling + {run.provider.loc}) && run.provider.loc !in calling
    requires ServedNow(g0, g', m', log', run)
    requires MemoGrows(m', m'') && MemoOk(g', m'', log' + [run]) && RunRecorded(m'', run)
    ensures StateOk(g0, g', m'', log' + [run])
    ensures Advances(g, m, log, g', m'', log' + [run], calling)
  {
    StateParts(g0, g', m', log');
    AdvancesParts(g, m, log, g', m', log', calling + {run.provider.loc});
    assert Unfold(0);
    AppendOk(g0, g', m', m'', log', run);
    AvoidsAppend(log, log', calling, run);
    StateWhole(g0, g', m'', log' + [run]);
    AdvancesWhole(g, m, log, g', m'', log' + [run], calling);
  }

  lemma FirstRun(g0: Graph, g: Graph, m: Memo, log: seq<Run>, g': Graph, m': Memo, log': seq<Run>,
                 calling: set<Location>, run: Run)
    requires StateOk(g0, g', m', log') && run.who !in Ran(log) && Belongs(g', run)
    requires Advances(g, m, log, g', m', log', calling + {run.provider.loc})
    ensures run.who !in Ran(log')
  {
    StateParts(g0, g', m', log');
    AdvancesParts(g, m, log, g', m', log', calling + {run.provider.loc});
    if run.who.InvokerRun? {
      InvokerNotRunMeanwhile(log, log', calling + {run.provider.loc}, run.who);
    } else {
      NotRunMeanwhile(g0, g', m', log, log', calling + {run.provider.loc}, run.who);
    }
  }

  /** Storing the result of a provider that was called from the state `(g, m, log)`. */
  lemma SimpleRunOk(g0: Graph, g: Graph, m: Memo, log: seq<Run>, g': Graph, m': Memo, log': seq<Run>,
                    calling: set<Location>, n: nat, run: Run, vs: seq<Value>)
    requires StateOk(g0, g, m, log) && StateOk(g0, g', m', log') && n !in m.values
    requires run.who == SimpleRun(n) && Belongs(g', run)
    requires Advances(g, m, log, g', m', log', calling + {run.provider.loc}) && run.provider.loc !in calling
    requires ServedNow(g0, g', m', log', run) && run.provider.fn(run.args) == Some(vs)
    ensures StateOk(g0, g', WithValues(m', n, vs), log' + [run])
    ensures Advances(g, m, log, g', WithValues(m', n, vs), log' + [run], calling)
  {
    SimpleNotYetRun(g0, g, m, log, n);
    FirstRun(g0, g, m, log, g', m', log', calling, run);
    StateParts(g0, g', m', log');
    RanAppend(log', run);
    SimpleMemoOk(g', m', log', log' + [run], n, vs);
    RunOk(g0, g, m, log, g', m', log', calling, run, WithValues(m', n, vs));
  }

  function WithScopedValues(m: Memo, n: nat, key: Option<Module>, vs: seq<Value>): Memo {
    m.(scopedValues := m.scopedValues[(n, key) := vs])
  }

  lemma ScopedMemoOk(g: Graph, m: Memo, log: seq<Run>, log': seq<Run>, n: nat, key: Option<Module>, vs: seq<Value>)
    requires MemoOk(g, m, log) && log <= log' && Ran(log') == Ran(log) + {ScopedRun(n, key)}
    requires n < |g.scoped| && (n, key) !in m.scopedValues && |vs| == |g.scoped[n].outputs|
    ensures MemoGrows(m, WithScopedValues(m, n, key, vs)) && MemoOk(g, WithScopedValues(m, n, key, vs), log')
  {
    PickedStable(g, m, WithScopedValues(m, n, key, vs), log, log');
  }

  lemma ScopedRunOk(g0: Graph, g: Graph, m: Memo, log: seq<Run>, g': Graph, m': Memo, log': seq<Run>,
                    calling: set<Location>, n: nat, key: Option<Module>, run: Run, vs: seq<Value>)
    requires StateOk(g0, g, m, log) && StateOk(g0, g', m', log') && (n, key) !in m.scopedValues
    requires run.who == ScopedRun(n, key) && Belongs(g', run)
    requires Advances(g, m, log, g', m', log', calling + {run.provider.loc}) && run.provider.loc !in calling
    requires ServedNow(g0, g', m', log', run) && run.provider.fn(run.args) == Some(vs)
    ensures StateOk(g0, g', WithScopedValues(m', n, key, vs), log' + [run])
    ensures Advances(g, m, log, g', WithScopedValues(m', n, key, vs), log' + [run], calling)
  {
    ScopedNotYetRun(g0, g, m, log, n, key);
    FirstRun(g0, g, m, log, g', m', log', calling, run);
    StateParts(g0, g', m', log');
    RanAppend(log', run);
    ScopedMemoOk(g', m', log', log' + [run], n, key, vs);
    RunOk(g0, g, m, log, g', m', log', calling, run, WithScopedValues(m', n, key, vs));
  }

  /** A call that failed, if there is one, was served like any other. */
  ghost predicate Failed(g0: Graph, g: Graph, m: Memo, log: seq<Run>, failed: Option<Run>) {
    failed.None? || forall z: int {:trigger Unfold(z)} :: Guard(z) ==> exists w: int {:trigger Fold(w)} ::
      Fold(w) && FailureOk(g0, g, m, log, failed.value)
  }

  lemma FailedParts(g0: Graph, g: Graph, m: Memo, log: seq<Run>, failed: Option<Run>)
    requires Failed(g0, g, m, log, failed)
    ensures failed.Some? ==> FailureOk(g0, g, m, log, failed.value)
  {
    assert Unfold(0);
  }

  /** A provider that was called from the state `(g, m, log)` and returned an error. */
  lemma FailedOk(g0: Graph, g: Graph, m: Memo, log: seq<Run>, g': Graph, m': Memo, log': seq<Run>,
                 calling: set<Location>, run: Run)
    requires StateOk(g0, g, m, log) && StateOk(g0, g', m', log') && run.who !in Ran(log)
    requires Belongs(g', run)
    requires Advances(g, m, log, g', m', log', calling + {run.provider.loc})
    requires ServedNow(g0, g', m', log', run) && run.provider.fn(run.args).None?
    ensures Failed(g0, g', m', log', Some(run))
  {
    assert Unfold(0);
    FirstRun(g0, g, m, log, g', m', log', calling, run);
  }

  lemma InvokerNotRunMeanwhile(log: seq<Run>, log': seq<Run>, calling: set<Location>, who: Runner)
    requires Avoids(log, log', calling) && who !in Ran(log) && who.InvokerRun?
    ensures who !in Ran(log')
  {
    forall i | 0 <= i < |log'| ensures log'[i].who != who {
      if i < |log| {
        assert log'[i] == log[i] && log[i] in log;
      }
    }
  }

  lemma SimpleNotYetRun(g0: Graph, g: Graph, m: Memo, log: seq<Run>, n: nat)
    requires StateOk(g0, g, m, log) && n !in m.values
    ensures SimpleRun(n) !in Ran(log)
  {
    StateParts(g0, g, m, log);
  }

  lemma ScopedNotYetRun(g0: Graph, g: Graph, m: Memo, log: seq<Run>, n: nat, key: Option<Module>)
    requires StateOk(g0, g, m, log) && (n, key) !in m.scopedValues
    ensures ScopedRun(n, key) !in Ran(log)
  {
    StateParts(g0, g, m, log);
    var k: (nat, Option<Module>) := (n, key);
    assert k !in m.scopedValues ==> ScopedRun(k.0, k.1) !in Ran(log);
  }

  /** Exactly the first `n` invokers have run, in their order. */
  ghost predicate InvokersRun(log: seq<Run>, n: nat) {
    forall z: int {:trigger Unfold(z)} :: Guard(z) ==> exists w: int {:trigger Fold(w)} ::
      && Fold(w)
      && (forall i :: 0 <= i < |log| && log[i].who.InvokerRun? ==> log[i].who.inv < n)
      && (forall i :: 0 <= i < n ==> InvokerRun(i) in Ran(log))
      && InvokersOrdered(log)
  }

  ghost predicate InvokersOrdered(log: seq<Run>) {
    forall i, j :: 0 <= i < j < |log| && log[i].who.InvokerRun? && log[j].who.InvokerRun? ==>
      log[i].who.inv < log[j].who.inv
  }

  lemma InvokersNone()
    ensures InvokersRun([], 0)
  {
    assert Unfold(0) && Fold(0);
  }

  lemma InvokersParts(log: seq<Run>, n: nat)
    requires InvokersRun(log, n)
    ensures forall i :: 0 <= i < n ==> InvokerRun(i) in Ran(log)
    ensures InvokersOrdered(log)
  {
    assert Unfold(0);
  }

  lemma InvokersKept(g: Graph, m: Memo, log: seq<Run>, g': Graph, m': Memo, log': seq<Run>, calling: set<Location>,
                     n: nat)
    requires Advances(g, m, log, g', m', log', calling) && InvokersRun(log, n)
    ensures InvokersRun(log', n) && InvokerRun(n) !in Ran(log')
  {
    assert Unfold(0);
    AdvancesParts(g, m, log, g', m', log', calling);
    forall i | 0 <= i < |log'| && log'[i].who.InvokerRun? ensures i < |log| && log'[i] == log[i] {
    }
    assert Ran(log) <= Ran(log');
  }

  lemma InvokersNext(log: seq<Run>, run: Run, n: nat)
    requires InvokersRun(log, n) && run.who == InvokerRun(n)
    ensures InvokersRun(log + [run], n + 1)
  {
    assert Unfold(0);
    RanAppend(log, run);
  }

  lemma InvokerMemoOk(g: Graph, m: Memo, log: seq<Run>, run: Run)
    requires MemoOk(g, m, log) && run.who.InvokerRun?
    ensures MemoOk(g, m, log + [run])
  {
    RanAppend(log, run);
  }

  lemma InvokerRunOk(g0: Graph, g: Graph, m: Memo, log: seq<Run>, run: Run)
    requires StateOk(g0, g, m, log) && run.who.InvokerRun? && run.who !in Ran(log) && Belongs(g, run)
    requires ServedNow(g0, g, m, log, run) && run.provider.fn(run.args).Some?
    ensures StateOk(g0, g, m, log + [run])
  {
    StateParts(g0, g, m, log);
    assert Unfold(0);
    AppendOk(g0, g, m, m, log, run);
    InvokerMemoOk(g, m, log, run);
    StateWhole(g0, g, m, log + [run]);
  }

  // ---------------------------------------------------------------------------
  // Picking values
  // ---------------------------------------------------------------------------

  function WithPick(m: Memo, r: Resolver, key: Option<Module>, v: Value): Memo {
    m.(picked := m.picked[(r, key) := v])
  }

  /** A resolver's value is known and all runs that it needs have happened. */
  ghost predicate Resolved(g: Graph, m: Memo, log: seq<Run>, r: Resolver, key: Option<Module>, v: Value) {
    forall z: int {:trigger Unfold(z)} :: Guard(z) ==> exists w: int {:trigger Fold(w)} ::
      Fold(w) && ValueOf(g, m, r, key) == Some(v) && RunsOf(g, r, key) <= Ran(log)
  }

  lemma ResolvedParts(g: Graph, m: Memo, log: seq<Run>, r: Resolver, key: Option<Module>, v: Value)
    requires Resolved(g, m, log, r, key, v)
    ensures ValueOf(g, m, r, key) == Some(v) && RunsOf(g, r, key) <= Ran(log)
  {
    assert Unfold(0);
  }

  lemma ResolvedWhole(g: Graph, m: Memo, log: seq<Run>, r: Resolver, key: Option<Module>, v: Value)
    requires ValueOf(g, m, r, key) == Some(v) && RunsOf(g, r, key) <= Ran(log)
    ensures Resolved(g, m, log, r, key, v)
  {
    assert Unfold(0) && Fold(0);
  }

  lemma SuppliedResolved(g: Graph, m: Memo, log: seq<Run>, v: Value, t: Type, key: Option<Module>)
    ensures Resolved(g, m, log, Supplied(v, t), key, v)
  {
    ResolvedWhole(g, m, log, Supplied(v, t), key, v);
  }

  /** What is picked for a resolver is always its value, so picking it again changes nothing. */
  lemma PickGrows(g: Graph, m: Memo, log: seq<Run>, r: Resolver, key: Option<Module>, v: Value)
    requires MemoOk(g, m, log) && Resolved(g, m, log, r, key, v)
    ensures MemoGrows(m, WithPick(m, r, key, v))
  {
    ResolvedParts(g, m, log, r, key, v);
  }

  lemma PickMemoOk(g: Graph, m: Memo, log: seq<Run>, r: Resolver, key: Option<Module>, v: Value)
    requires MemoOk(g, m, log) && ValidResolver(g, r) && Resolved(g, m, log, r, key, v)
    ensures MemoGrows(m, WithPick(m, r, key, v)) && MemoOk(g, WithPick(m, r, key, v), log)
    ensures Resolved(g, WithPick(m, r, key, v), log, r, key, v)
  {
    PickGrows(g, m, log, r, key, v);
    ResolvedParts(g, m, log, r, key, v);
    PickedStable(g, m, WithPick(m, r, key, v), log, log);
    ValueStable(g, g, m, WithPick(m, r, key, v), r, key);
    ResolvedWhole(g, WithPick(m, r, key, v), log, r, key, v);
  }

  /** Remembering the value that a resolver stands for. */
  lemma PickOk(g0: Graph, g: Graph, m: Memo, log: seq<Run>, r: Resolver, key: Option<Module>, v: Value,
               calling: set<Location>)
    requires StateOk(g0, g, m, log) && ValidResolver(g, r) && Resolved(g, m, log, r, key, v)
    ensures StateOk(g0, g, WithPick(m, r, key, v), log)
    ensures Advances(g, m, log, g, WithPick(m, r, key, v), log, calling)
    ensures Resolved(g, WithPick(m, r, key, v), log, r, key, v)
  {
    StateParts(g0, g, m, log);
    PickMemoOk(g, m, log, r, key, v);
    LogStable(g0, g, g, m, WithPick(m, r, key, v), log);
    StateWhole(g0, g, WithPick(m, r, key, v), log);
    AdvancesWhole(g, m, log, g, WithPick(m, r, key, v), log, calling);
  }

  lemma PickedIsResolved(g0: Graph, g: Graph, m: Memo, log: seq<Run>, r: Resolver, key: Option<Module>)
    requires StateOk(g0, g, m, log) && (r, key) in m.picked
    ensures Resolved(g, m, log, r, key, m.picked[(r, key)])
  {
    StateParts(g0, g, m, log);
    ResolvedWhole(g, m, log, r, key, m.picked[(r, key)]);
  }

  lemma SimpleResolved(g0: Graph, g: Graph, m: Memo, log: seq<Run>, n: nat, i: nat, t: Type)
    requires StateOk(g0, g, m, log) && n in m.values && n < |g.simple| && i < |g.simple[n].provider.outputs|
    ensures |m.values[n]| == |g.simple[n].provider.outputs|
    ensures Resolved(g, m, log, Simple(n, i, t), None, m.values[n][i])
  {
    StateParts(g0, g, m, log);
    ResolvedWhole(g, m, log, Simple(n, i, t), None, m.values[n][i]);
  }

  lemma ScopedResolved(g0: Graph, g: Graph, m: Memo, log: seq<Run>, n: nat, i: nat, t: Type, key: Option<Module>)
    requires StateOk(g0, g, m, log) && (n, key) in m.scopedValues && n < |g.scoped| && i < |g.scoped[n].outputs|
    ensures |m.scopedValues[(n, key)]| == |g.scoped[n].outputs|
    ensures Resolved(g, m, log, Scoped(n, i, t), key, m.scopedValues[(n, key)][i])
  {
    StateParts(g0, g, m, log);
    ResolvedWhole(g, m, log, Scoped(n, i, t), key, m.scopedValues[(n, key)][i]);
  }

  /** The values of the first outputs of a group, collected after the runs that produced them. */
  ghost predicate Collected(m: Memo, log: seq<Run>, outputs: seq<Output>, res: seq<Value>) {
    forall z: int {:trigger Unfold(z)} :: Guard(z) ==> exists w: int {:trigger Fold(w)} ::
      Fold(w) && GroupValue(m, outputs) == Some(res) && forall o :: o in outputs ==> SimpleRun(o.node) in Ran(log)
  }

  function Spread(v: Value): seq<Value> {
    if v.List? then v.elems else [v]
  }

  lemma {:induction false} CollectedNext(
    g0: Graph, g: Graph, m: Memo, log: seq<Run>, g': Graph, m': Memo, log': seq<Run>, calling: set<Location>,
    outputs: seq<Output>, i: nat, res: seq<Value>)
    requires i < |outputs| && Collected(m, log, outputs[..i], res) && Advances(g, m, log, g', m', log', calling)
    requires StateOk(g0, g', m', log') && outputs[i].node in m'.values && ValidOutput(g', outputs[i])
    ensures |m'.values[outputs[i].node]| > outputs[i].idx
    ensures Collected(m', log', outputs[..i + 1], res + Spread(m'.values[outputs[i].node][outputs[i].idx]))
  {
    AdvancesParts(g, m, log, g', m', log', calling);
    var o := outputs[i];
    SimpleResolved(g0, g', m', log', o.node, o.idx, "");
    ResolvedParts(g', m', log', Simple(o.node, o.idx, ""), None, m'.values[o.node][o.idx]);
    CollectedExtend(m, log, m', log', outputs, i, res, m'.values[o.node][o.idx]);
  }

  lemma {:induction false} CollectedExtend(m: Memo, log: seq<Run>, m': Memo, log': seq<Run>, outputs: seq<Output>,
                                           i: nat,
                                           res: seq<Value>, v: Value)
    requires i < |outputs| && Collected(m, log, outputs[..i], res) && MemoGrows(m, m') && Ran(log) <= Ran(log')
    requires OutputValue(m', outputs[i]) == Some(v) && SimpleRun(outputs[i].node) in Ran(log')
    ensures Collected(m', log', outputs[..i + 1], res + Spread(v))
  {
    assert Unfold(0);
    GroupValueStable(m, m', outputs[..i]);
    assert outputs[..i + 1][..i] == outputs[..i];
    assert forall o :: o in outputs[..i + 1] ==> o in outputs[..i] || o == outputs[i];
  }

  lemma CollectedNone(m: Memo, log: seq<Run>, outputs: seq<Output>)
    ensures Collected(m, log, outputs[..0], [])
  {
    assert Unfold(0) && Fold(0);
  }

  lemma CollectedResolved(g: Graph, m: Memo, log: seq<Run>, e: Type, t: Type, res: seq<Value>)
    requires e in g.groups && Collected(m, log, g.groups[e][..|g.groups[e]|], res)
    ensures Resolved(g, m, log, GroupSlice(e, t), None, List(res))
  {
    assert Unfold(0);
    assert g.groups[e][..|g.groups[e]|] == g.groups[e];
    ResolvedWhole(g, m, log, GroupSlice(e, t), None, List(res));
  }

  /** The values of all outputs but the pending ones, collected after the runs that produced them. */
  ghost predicate Tabulated(m: Memo, log: seq<Run>, outputs: map<Module, Output>, pending: set<Module>,
                            res: map<Module, Value>)
  {
    forall z: int {:trigger Unfold(z)} :: Guard(z) ==> exists w: int {:trigger Fold(w)} ::
      && Fold(w)
      && pending <= outputs.Keys && res.Keys == outputs.Keys - pending
      && forall k :: k in res ==> OutputValue(m, outputs[k]) == Some(res[k]) && SimpleRun(outputs[k].node) in Ran(log)
  }

  lemma TabulatedNone(m: Memo, log: seq<Run>, outputs: map<Module, Output>)
    ensures Tabulated(m, log, outputs, outputs.Keys, map[])
  {
    assert Unfold(0) && Fold(0);
  }

  lemma TabulatedKeys(m: Memo, log: seq<Run>, outputs: map<Module, Output>, pending: set<Module>,
                      res: map<Module, Value>)
    requires Tabulated(m, log, outputs, pending, res)
    ensures pending <= outputs.Keys
  {
    assert Unfold(0);
  }

  lemma TabulatedNext(
    g0: Graph, g: Graph, m: Memo, log: seq<Run>, g': Graph, m': Memo, log': seq<Run>, calling: set<Location>,
    outputs: map<Module, Output>, pending: set<Module>, res: map<Module, Value>, k: Module)
    requires Tabulated(m, log, outputs, pending, res) && Advances(g, m, log, g', m', log', calling)
    requires k in pending && k in outputs
    requires StateOk(g0, g', m', log') && outputs[k].node in m'.values && ValidOutput(g', outputs[k])
    ensures |m'.values[outputs[k].node]| > outputs[k].idx
    ensures Tabulated(m', log', outputs, pending - {k}, res[k := m'.values[outputs[k].node][outputs[k].idx]])
  {
    AdvancesParts(g, m, log, g', m', log', calling);
    var o := outputs[k];
    SimpleResolved(g0, g', m', log', o.node, o.idx, "");
    ResolvedParts(g', m', log', Simple(o.node, o.idx, ""), None, m'.values[o.node][o.idx]);
    TabulatedExtend(m, log, m', log', outputs, pending, res, k, m'.values[o.node][o.idx]);
  }

  lemma TabulatedExtend(m: Memo, log: seq<Run>, m': Memo, log': seq<Run>, outputs: map<Module, Output>,
                        pending: set<Module>, res: map<Module, Value>, k: Module, v: Value)
    requires Tabulated(m, log, outputs, pending, res) && MemoGrows(m, m') && Ran(log) <= Ran(log')
    requires k in pending && k in outputs
    requires OutputValue(m', outputs[k]) == Some(v) && SimpleRun(outputs[k].node) in Ran(log')
    ensures Tabulated(m', log', outputs, pending - {k}, res[k := v])
  {
    assert Unfold(0);
  }

  lemma TabulatedResolved(g: Graph, m: Memo, log: seq<Run>, e: Type, t: Type, res: map<Module, Value>)
    requires e in g.perModule && Tabulated(m, log, g.perModule[e], {}, res)
    ensures Resolved(g, m, log, PerModuleMap(e, t), None, Table(res))
  {
    assert Unfold(0);
    var outputs := g.perModule[e];
    assert res == map k | k in outputs :: OutputValue(m, outputs[k]).value;
    ResolvedWhole(g, m, log, PerModuleMap(e, t), None, Table(res));
  }

  // ---------------------------------------------------------------------------
  // Serving inputs
  // ---------------------------------------------------------------------------

  /** The inputs resolved so far, on the state reached so far. */
  ghost predicate ServedSoFar(g0: Graph, g: Graph, m: Memo, log: seq<Run>, p: Provider, key: Option<Module>,
                              used: seq<Option<Resolver>>, args: seq<Value>)
  {
    forall z: int {:trigger Unfold(z)} :: Guard(z) ==> exists w: int {:trigger Fold(w)} ::
      && Fold(w)
      && |used| == |args| <= |p.inputs|
      && forall i :: 0 <= i < |args| ==> InputServed(g0, g, m, Ran(log), p.inputs[i], key, used[i], args[i])
  }

  /** One input that is served by the present state. */
  ghost predicate InputNow(g0: Graph, g: Graph, m: Memo, log: seq<Run>, input: Input, key: Option<Module>,
                           used: Option<Resolver>, arg: Value)
  {
    forall z: int {:trigger Unfold(z)} :: Guard(z) ==> exists w: int {:trigger Fold(w)} ::
      Fold(w) && InputServed(g0, g, m, Ran(log), input, key, used, arg)
  }

  /** An input that needs no resolver. */
  lemma InputUnresolved(g0: Graph, g: Graph, m: Memo, log: seq<Run>, input: Input, key: Option<Module>, arg: Value)
    requires InputServed(g0, g, m, {}, input, key, None, arg)
    ensures InputNow(g0, g, m, log, input, key, None, arg)
  {
    assert Unfold(0) && Fold(0);
  }

  /** An input whose resolver was found in the graph `g` and then resolved. */
  lemma InputResolved(g0: Graph, g: Graph, m: Memo, log: seq<Run>, g': Graph, m': Memo, log': seq<Run>,
                      calling: set<Location>,
                      input: Input, key: Option<Module>, r: Resolver, arg: Value)
    requires StateOk(g0, g, m, log) && Advances(g, m, log, g', m', log', calling)
    requires !input.ignored && input.typ != MODULE_KEY && input.typ != OWN_MODULE_KEY
    requires Lookup(g, input.typ, key) == Some(r) && Resolved(g', m', log', r, key, arg)
    ensures InputNow(g0, g', m', log', input, key, Some(r), arg)
  {
    assert Unfold(0) && Fold(0);
    StateParts(g0, g, m, log);
    AdvancesParts(g, m, log, g', m', log', calling);
    RegisteredStable(g0, g, g', input.typ, key, r);
    ResolvedParts(g', m', log', r, key, arg);
  }

  lemma ServedNone(g0: Graph, g: Graph, m: Memo, log: seq<Run>, p: Provider, key: Option<Module>)
    ensures ServedSoFar(g0, g, m, log, p, key, [], [])
  {
    assert Unfold(0) && Fold(0);
  }

  lemma ServedNext(g0: Graph, g: Graph, m: Memo, log: seq<Run>, g': Graph, m': Memo, log': seq<Run>,
                   calling: set<Location>,
                   p: Provider, key: Option<Module>, used: seq<Option<Resolver>>, args: seq<Value>,
                   u: Option<Resolver>, v: Value)
    requires StateOk(g0, g, m, log) && Advances(g, m, log, g', m', log', calling)
    requires ServedSoFar(g0, g, m, log, p, key, used, args) && |args| < |p.inputs|
    requires InputNow(g0, g', m', log', p.inputs[|args|], key, u, v)
    ensures ServedSoFar(g0, g', m', log', p, key, used + [u], args + [v])
  {
    assert Unfold(0);
    StateParts(g0, g, m, log);
    AdvancesParts(g, m, log, g', m', log', calling);
    forall i | 0 <= i < |args| ensures InputServed(g0, g', m', Ran(log'), p.inputs[i], key, used[i], args[i]) {
      InputServedStable(g0, g, g', m, m', Ran(log), Ran(log'), p.inputs[i], key, used[i], args[i]);
    }
  }

  lemma ServedAll(g0: Graph, g: Graph, m: Memo, log: seq<Run>, run: Run)
    requires ServedSoFar(g0, g, m, log, run.provider, run.moduleKey, run.used, run.args)
    requires |run.args| == |run.provider.inputs|
    ensures ServedNow(g0, g, m, log, run)
  {
    assert Unfold(0);
  }
}
