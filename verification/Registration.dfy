/** Registering resolvers in the provider graph (`depinject/container.go`). */
module Registration {
  import opened ProviderGraph
  import opened Resolution
  import opened Hiding
  import opened Options

  datatype ResolveError =
    | Cyclic | Unresolved | OutsideModule | NoTypeForBinding | Ambiguous | NotAnInput | NotAnOutput
    | Duplicate | Incompatible | ProviderFailed | InvokerHasOutputs

  datatype Outcome<+T> = Ok(value: T) | Err(error: ResolveError) {
    predicate IsFailure() { Err? }

    function PropagateFailure<U>(): Outcome<U>
      requires Err?
    {
      Err(error)
    }

    function Extract(): T
      requires Ok?
    {
      value
    }
  }

  // ---------------------------------------------------------------------------
  // Collected types
  // ---------------------------------------------------------------------------

  /** Neither a many-per-container or one-per-module type nor a collection of one. */
  ghost predicate Plain(ts: TypeSystem, typ: Type) {
    ts.CollectedAs(ts.Elem(typ)).None?
  }

  /** A type that is not plain is a collected type or its collection, and these are different. */
  lemma CollectedTypes(ts: TypeSystem, typ: Type)
    requires ts.Lawful() && !Plain(ts, typ)
    ensures var e := ts.Elem(typ); var c := ts.CollectedAs(e).value;
            && (typ == e || typ == c) && e != c && ts.Elem(e) == e && ts.Elem(c) == e && !ts.isInterface(c)
  {
    var e := ts.Elem(typ);
    assert ts.isMany(e) ==> ts.sliceElem(ts.sliceOf(e)) == Some(e) && ts.IsManySlice(ts.sliceOf(e));
    assert !ts.isMany(e) ==> ts.mapElem(ts.mapOf(e)) == Some(e) && ts.IsOnePerMap(ts.mapOf(e));
  }

  /** Resolvers that are not shared belong to their type, or to the one type that implements an interface. */
  ghost predicate Entry(ts: TypeSystem, g: Graph, t: Type)
    requires t in g.resolvers
  {
    if Grouping(g.resolvers[t]) then Plain(ts, t) || ts.Elem(t) in g.groups || ts.Elem(t) in g.perModule
    else g.resolvers[t].typ == t || (ts.isInterface(t) && Plain(ts, t))
  }

  /** A group or table is registered for its type and for the collection of its type. */
  ghost predicate Grouped(ts: TypeSystem, g: Graph) {
    && (forall e :: e in g.groups ==> ts.isMany(e) && e in g.resolvers && ts.sliceOf(e) in g.resolvers)
    && (forall e :: e in g.perModule ==> ts.isOnePer(e) && e in g.resolvers && ts.mapOf(e) in g.resolvers)
    && (forall t :: t in g.resolvers ==> Entry(ts, g, t))
  }

  /** What every registration keeps. */
  ghost predicate Contents(ts: TypeSystem, g: Graph) {
    forall z: int {:trigger Unfold(z)} :: Guard(z) ==> exists w: int {:trigger Fold(w)} ::
      Fold(w) && ts.Lawful() && WellFormed(g) && Grouped(ts, g)
  }

  lemma ContentsLawful(ts: TypeSystem, g: Graph)
    requires Contents(ts, g)
    ensures ts.Lawful()
  {
    assert Unfold(0);
  }

  lemma ContentsParts(ts: TypeSystem, g: Graph)
    requires Contents(ts, g)
    ensures WellFormed(g) && Grouped(ts, g)
  {
    assert Unfold(0);
  }

  lemma ContentsAfter(ts: TypeSystem, g: Graph, g': Graph)
    requires Contents(ts, g) && WellFormed(g') && Grouped(ts, g')
    ensures Contents(ts, g')
  {
    ContentsLawful(ts, g);
    assert Unfold(0) && Fold(0);
  }

  lemma RegisteredIsValid(ts: TypeSystem, g: Graph, t: Type)
    requires Contents(ts, g) && t in g.resolvers
    ensures ValidResolver(g, g.resolvers[t])
  {
    ContentsParts(ts, g);
  }

  /** Nothing that is registered is lost, except that a group takes over a collected type. */
  ghost predicate Accumulates(ts: TypeSystem, g: Graph, g': Graph) {
    forall z: int {:trigger Unfold(z)} :: Guard(z) ==> exists w: int {:trigger Fold(w)} ::
      && Fold(w)
      && g'.bindings == g.bindings && g'.invokers == g.invokers
      && (forall t :: t in g.resolvers ==> t in g'.resolvers && Keeps(ts, t, g.resolvers[t], g'.resolvers[t]))
      && (forall e :: e in g.groups ==> e in g'.groups && g.groups[e] <= g'.groups[e])
      && (forall e :: e in g.perModule ==> e in g'.perModule && TableGrows(g.perModule[e], g'.perModule[e]))
  }

  ghost predicate Keeps(ts: TypeSystem, t: Type, r: Resolver, r': Resolver) {
    r' == r || (!Plain(ts, t) && !Grouping(r) && Grouping(r'))
  }

  lemma AccumulatesTransitive(ts: TypeSystem, g: Graph, g': Graph, g'': Graph)
    requires Accumulates(ts, g, g') && Accumulates(ts, g', g'')
    ensures Accumulates(ts, g, g'')
  {
    assert Unfold(0);
    forall e | e in g.groups ensures g.groups[e] <= g''.groups[e] {
      assert g.groups[e] <= g'.groups[e] <= g''.groups[e];
    }
  }

  lemma AccumulatesInvokers(ts: TypeSystem, g: Graph, g': Graph)
    requires Accumulates(ts, g, g')
    ensures g'.invokers == g.invokers
  {
    assert Unfold(0);
  }

  lemma AccumulatesExtends(ts: TypeSystem, g: Graph, g': Graph)
    requires Accumulates(ts, g, g') && g.simple <= g'.simple && g.scoped <= g'.scoped
    ensures Extends(g, g')
  {
    assert Unfold(0);
  }

  lemma AccumulatesStill(ts: TypeSystem, g: Graph)
    ensures Accumulates(ts, g, g)
  {
    assert Unfold(0) && Fold(0);
  }

  // ---------------------------------------------------------------------------
  // Groups and tables
  // ---------------------------------------------------------------------------

  function WithSlice(g: Graph, elem: Type, slice: Type): Graph {
    g.(groups := g.groups[elem := []],
       resolvers := g.resolvers[elem := GroupElem(elem, slice)][slice := GroupSlice(elem, slice)])
  }

  function WithTable(g: Graph, elem: Type, table: Type): Graph {
    g.(perModule := g.perModule[elem := map[]],
       resolvers := g.resolvers[elem := PerModuleElem(elem, table)][table := PerModuleMap(elem, table)])
  }

  /** Registers a many-per-container or one-per-module type, and its collection, when first met. */
  function WithGroups(ts: TypeSystem, g: Graph, typ: Type): Graph {
    var e := ts.Elem(typ);
    if ts.isMany(e) then WithSlice(g, e, ts.sliceOf(e))
    else if ts.isOnePer(e) then WithTable(g, e, ts.mapOf(e))
    else g
  }

  /** A collected type that is met for the first time has neither a group nor a table. */
  lemma FreshElem(ts: TypeSystem, g: Graph, typ: Type)
    requires ts.Lawful() && Grouped(ts, g) && typ !in g.resolvers && !Plain(ts, typ)
    ensures ts.Elem(typ) !in g.groups && ts.Elem(typ) !in g.perModule
  {
    CollectedTypes(ts, typ);
  }

  /** A resolver that a new group takes over was its type's own. */
  lemma TakenIsOwn(ts: TypeSystem, g: Graph, e: Type, t: Type)
    requires ts.Lawful() && Grouped(ts, g) && t in g.resolvers && ts.Elem(t) == e && ts.CollectedAs(e).Some?
    requires e !in g.groups && e !in g.perModule
    ensures Own(g, t)
  {
    assert Entry(ts, g, t);
  }

  lemma SliceWellFormed(g: Graph, e: Type, c: Type)
    requires WellFormed(g) && e !in g.groups
    ensures WellFormed(WithSlice(g, e, c))
  {
    var g' := WithSlice(g, e, c);
    forall t | t in g'.resolvers ensures ValidResolver(g', g'.resolvers[t]) {
      assert t != e && t != c ==> ValidResolver(g, g.resolvers[t]);
    }
  }

  lemma TableWellFormed(g: Graph, e: Type, c: Type)
    requires WellFormed(g) && e !in g.perModule
    ensures WellFormed(WithTable(g, e, c))
  {
    var g' := WithTable(g, e, c);
    forall t | t in g'.resolvers ensures ValidResolver(g', g'.resolvers[t]) {
      assert t != e && t != c ==> ValidResolver(g, g.resolvers[t]);
    }
  }

  lemma SliceGrows(g: Graph, e: Type, c: Type)
    requires e !in g.groups && (e in g.resolvers ==> Own(g, e)) && (c in g.resolvers ==> Own(g, c))
    ensures Grows(g, WithSlice(g, e, c))
  {
  }

  lemma TableGrowsToo(g: Graph, e: Type, c: Type)
    requires e !in g.perModule && (e in g.resolvers ==> Own(g, e)) && (c in g.resolvers ==> Own(g, c))
    ensures Grows(g, WithTable(g, e, c))
  {
  }

  lemma SliceAccumulates(ts: TypeSystem, g: Graph, e: Type, c: Type)
    requires e !in g.groups && (e in g.resolvers ==> Own(g, e)) && (c in g.resolvers ==> Own(g, c))
    requires !Plain(ts, e) && !Plain(ts, c)
    ensures Accumulates(ts, g, WithSlice(g, e, c))
  {
    assert Unfold(0) && Fold(0);
  }

  lemma TableAccumulates(ts: TypeSystem, g: Graph, e: Type, c: Type)
    requires e !in g.perModule && (e in g.resolvers ==> Own(g, e)) && (c in g.resolvers ==> Own(g, c))
    requires !Plain(ts, e) && !Plain(ts, c)
    ensures Accumulates(ts, g, WithTable(g, e, c))
  {
    assert Unfold(0) && Fold(0);
  }

  lemma SliceGrouped(ts: TypeSystem, g: Graph, e: Type, c: Type)
    requires Grouped(ts, g) && ts.isMany(e) && c == ts.sliceOf(e) && ts.Elem(e) == e && ts.Elem(c) == e
    ensures Grouped(ts, WithSlice(g, e, c))
  {
    var g' := WithSlice(g, e, c);
    forall t | t in g'.resolvers ensures Entry(ts, g', t) {
      assert t in g.resolvers ==> Entry(ts, g, t);
    }
  }

  lemma TableGrouped(ts: TypeSystem, g: Graph, e: Type, c: Type)
    requires Grouped(ts, g) && ts.isOnePer(e) && c == ts.mapOf(e) && ts.Elem(e) == e && ts.Elem(c) == e
    ensures Grouped(ts, WithTable(g, e, c))
  {
    var g' := WithTable(g, e, c);
    forall t | t in g'.resolvers ensures Entry(ts, g', t) {
      assert t in g.resolvers ==> Entry(ts, g, t);
    }
  }

  /** The facts about a collected type that is met for the first time. */
  lemma FirstMet(ts: TypeSystem, g: Graph, typ: Type)
    requires Contents(ts, g) && typ !in g.resolvers && !Plain(ts, typ)
    ensures var e := ts.Elem(typ); var c := ts.CollectedAs(e).value;
            && (typ == e || typ == c) && e != c && ts.Elem(e) == e && ts.Elem(c) == e && !Plain(ts, e) && !Plain(ts, c)
            && e !in g.groups && e !in g.perModule
            && (e in g.resolvers ==> Own(g, e)) && (c in g.resolvers ==> Own(g, c))
  {
    ContentsLawful(ts, g);
    ContentsParts(ts, g);
    CollectedTypes(ts, typ);
    FreshElem(ts, g, typ);
    var e := ts.Elem(typ);
    var c := ts.CollectedAs(e).value;
    if e in g.resolvers {
      TakenIsOwn(ts, g, e, e);
    }
    if c in g.resolvers {
      TakenIsOwn(ts, g, e, c);
    }
  }

  lemma GroupsOk(ts: TypeSystem, g: Graph, typ: Type)
    requires Contents(ts, g) && typ !in g.resolvers && !Plain(ts, typ)
    ensures Contents(ts, WithGroups(ts, g, typ)) && typ in WithGroups(ts, g, typ).resolvers
    ensures Grows(g, WithGroups(ts, g, typ)) && Accumulates(ts, g, WithGroups(ts, g, typ))
  {
    ContentsParts(ts, g);
    FirstMet(ts, g, typ);
    var e := ts.Elem(typ);
    var c := ts.CollectedAs(e).value;
    if ts.isMany(e) {
      SliceWellFormed(g, e, c);
      SliceGrouped(ts, g, e, c);
      SliceGrows(g, e, c);
      SliceAccumulates(ts, g, e, c);
    } else {
      TableWellFormed(g, e, c);
      TableGrouped(ts, g, e, c);
      TableGrowsToo(g, e, c);
      TableAccumulates(ts, g, e, c);
    }
    ContentsAfter(ts, g, WithGroups(ts, g, typ));
  }

  /**
   * Registering a group replaces a resolver exactly if the partner of the type that is asked for,
   * its collection or its element type, had one; what was supplied for the partner is lost.
   */
  lemma TakesOver(ts: TypeSystem, g: Graph, typ: Type, t: Type)
    requires Contents(ts, g) && typ !in g.resolvers && !Plain(ts, typ) && t in g.resolvers
    ensures var e := ts.Elem(typ);
            WithGroups(ts, g, typ).resolvers[t] != g.resolvers[t]
            <==> t == if typ == e then ts.CollectedAs(e).value else e
  {
    FirstMet(ts, g, typ);
    RegisteredIsValid(ts, g, t);
  }

  // ---------------------------------------------------------------------------
  // Single types
  // ---------------------------------------------------------------------------

  function WithResolver(g: Graph, typ: Type, r: Resolver): Graph {
    g.(resolvers := g.resolvers[typ := r])
  }

  lemma MoreResolvers(g: Graph, typ: Type, r: Resolver)
    requires WellFormed(g) && ValidResolver(g, r)
    ensures WellFormed(WithResolver(g, typ, r))
  {
    var g' := WithResolver(g, typ, r);
    forall t | t in g'.resolvers ensures ValidResolver(g', g'.resolvers[t]) {
      assert t != typ ==> ValidResolver(g, g.resolvers[t]);
    }
  }

  lemma MoreGrouped(ts: TypeSystem, g: Graph, typ: Type, r: Resolver)
    requires Grouped(ts, g) && typ !in g.resolvers
    requires if Grouping(r) then Plain(ts, typ) else r.typ == typ || (ts.isInterface(typ) && Plain(ts, typ))
    ensures Grouped(ts, WithResolver(g, typ, r))
  {
    var g' := WithResolver(g, typ, r);
    forall t | t in g'.resolvers ensures Entry(ts, g', t) {
      assert t != typ ==> Entry(ts, g, t);
    }
  }

  lemma MoreAccumulates(ts: TypeSystem, g: Graph, typ: Type, r: Resolver)
    requires typ !in g.resolvers
    ensures Accumulates(ts, g, WithResolver(g, typ, r))
    ensures r.typ != typ || Grouping(r) ==> Grows(g, WithResolver(g, typ, r))
  {
    assert Unfold(0) && Fold(0);
  }

  /** A type of its own: provided, provided for each module, or supplied. */
  lemma OwnResolverOk(ts: TypeSystem, g: Graph, typ: Type, r: Resolver)
    requires Contents(ts, g) && typ !in g.resolvers && ValidResolver(g, r) && r.typ == typ && !Grouping(r)
    ensures Contents(ts, WithResolver(g, typ, r)) && Accumulates(ts, g, WithResolver(g, typ, r))
  {
    ContentsParts(ts, g);
    MoreResolvers(g, typ, r);
    MoreGrouped(ts, g, typ, r);
    MoreAccumulates(ts, g, typ, r);
    ContentsAfter(ts, g, WithResolver(g, typ, r));
  }

  /** An interface that resolves to the one type that implements it. */
  lemma InterfaceOk(ts: TypeSystem, g: Graph, typ: Type, t: Type)
    requires Contents(ts, g) && typ !in g.resolvers && ts.isInterface(typ) && Plain(ts, typ)
    requires t in g.resolvers && !ts.isInterface(t)
    ensures var g' := WithResolver(g, typ, g.resolvers[t]);
            Contents(ts, g') && Grows(g, g') && Accumulates(ts, g, g')
  {
    ContentsParts(ts, g);
    assert Entry(ts, g, t) && ValidResolver(g, g.resolvers[t]);
    var r := g.resolvers[t];
    MoreResolvers(g, typ, r);
    MoreGrouped(ts, g, typ, r);
    MoreAccumulates(ts, g, typ, r);
    ContentsAfter(ts, g, WithResolver(g, typ, r));
  }

  lemma NodeOk(ts: TypeSystem, g: Graph, node: Node)
    requires Contents(ts, g) && WellTyped(node.provider)
    ensures var g' := g.(simple := g.simple + [node]); Contents(ts, g') && Accumulates(ts, g, g')
  {
    ContentsParts(ts, g);
    var g' := g.(simple := g.simple + [node]);
    MoreNodes(g, g');
    SameEntries(ts, g, g');
    ContentsAfter(ts, g, g');
  }

  lemma InvokerOk(ts: TypeSystem, g: Graph, node: Node)
    requires Contents(ts, g)
    ensures Contents(ts, g.(invokers := g.invokers + [node]))
  {
    ContentsParts(ts, g);
    var g' := g.(invokers := g.invokers + [node]);
    MoreNodes(g, g');
    SameGrouped(ts, g, g');
    ContentsAfter(ts, g, g');
  }

  lemma ScopedNodeOk(ts: TypeSystem, g: Graph, p: Provider)
    requires Contents(ts, g) && WellTyped(p)
    ensures var g' := g.(scoped := g.scoped + [p]); Contents(ts, g') && Accumulates(ts, g, g')
  {
    ContentsParts(ts, g);
    var g' := g.(scoped := g.scoped + [p]);
    MoreNodes(g, g');
    SameEntries(ts, g, g');
    ContentsAfter(ts, g, g');
  }

  /** Resolvers, and which groups and tables there are, decide how types are grouped. */
  lemma SameEntries(ts: TypeSystem, g: Graph, g': Graph)
    requires Grouped(ts, g) && g'.resolvers == g.resolvers && g'.bindings == g.bindings && g'.invokers == g.invokers
    requires g'.groups.Keys == g.groups.Keys && g'.perModule.Keys == g.perModule.Keys
    requires forall e :: e in g.groups ==> g.groups[e] <= g'.groups[e]
    requires forall e :: e in g.perModule ==> TableGrows(g.perModule[e], g'.perModule[e])
    ensures Grouped(ts, g') && Accumulates(ts, g, g')
  {
    assert Unfold(0) && Fold(0);
    SameGrouped(ts, g, g');
  }

  lemma SameGrouped(ts: TypeSystem, g: Graph, g': Graph)
    requires Grouped(ts, g) && g'.resolvers == g.resolvers
    requires g'.groups.Keys == g.groups.Keys && g'.perModule.Keys == g.perModule.Keys
    ensures Grouped(ts, g')
  {
    assert forall e :: e in g'.groups ==> e in g.groups.Keys;
    assert forall e :: e in g'.perModule ==> e in g.perModule.Keys;
    forall t | t in g'.resolvers ensures Entry(ts, g', t) {
      assert Entry(ts, g, t);
    }
  }

  /** Adding well-typed nodes invalidates nothing. */
  lemma MoreNodes(g: Graph, g': Graph)
    requires WellFormed(g) && g'.resolvers == g.resolvers && g'.groups == g.groups && g'.perModule == g.perModule
    requires g.simple <= g'.simple && g.scoped <= g'.scoped
    requires forall n :: 0 <= n < |g'.simple| ==> WellTyped(g'.simple[n].provider)
    requires forall n :: 0 <= n < |g'.scoped| ==> WellTyped(g'.scoped[n])
    ensures WellFormed(g')
  {
    assert forall o :: ValidOutput(g, o) ==> ValidOutput(g', o);
    forall t | t in g'.resolvers ensures ValidResolver(g', g'.resolvers[t]) {
      assert ValidResolver(g, g.resolvers[t]);
    }
  }

  // ---------------------------------------------------------------------------
  // Finding resolvers
  // ---------------------------------------------------------------------------

  /** The concrete types with a resolver that implement an interface. */
  function Implementations(ts: TypeSystem, g: Graph, typ: Type): set<Type> {
    set t | t in g.resolvers && !ts.isInterface(g.resolvers[t].typ) && ts.implements(g.resolvers[t].typ, typ)
      :: g.resolvers[t].typ
  }

  /** What an interface without a resolver resolves to. */
  ghost predicate Binds(ts: TypeSystem, g: Graph, typ: Type, g': Graph, r: Outcome<Option<Resolver>>) {
    forall z: int {:trigger Unfold(z)} :: Guard(z) ==> exists w: int {:trigger Fold(w)} ::
      Fold(w) && BindsTo(ts, g, Implementations(ts, g, typ), typ, g', r)
  }

  ghost predicate BindsTo(ts: TypeSystem, g: Graph, impls: set<Type>, typ: Type, g': Graph,
                          r: Outcome<Option<Resolver>>)
  {
    && (|impls| > 1 ==> r == Err(Ambiguous) && g' == g)
    && (impls == {} ==> r == Ok(None) && g' == g)
    && (forall t :: t in impls && |impls| == 1 ==>
          if t in g.resolvers then r == Ok(Some(g.resolvers[t])) && g' == WithResolver(g, typ, g.resolvers[t])
          else r == Ok(None) && g' == g)
  }

  lemma BindsOne(ts: TypeSystem, g: Graph, typ: Type, t: Type)
    requires Implementations(ts, g, typ) == {t}
    ensures t in g.resolvers ==> Binds(ts, g, typ, WithResolver(g, typ, g.resolvers[t]), Ok(Some(g.resolvers[t])))
    ensures t !in g.resolvers ==> Binds(ts, g, typ, g, Ok(None))
    ensures !ts.isInterface(t)
  {
    assert Unfold(0) && Fold(0);
    assert t in Implementations(ts, g, typ);
  }

  lemma BindsNotOne(ts: TypeSystem, g: Graph, typ: Type)
    requires |Implementations(ts, g, typ)| != 1
    ensures Binds(ts, g, typ, g, if |Implementations(ts, g, typ)| > 1 then Err(Ambiguous) else Ok(None))
  {
    assert Unfold(0) && Fold(0);
  }

  /**
   * What looking a type up gives and what it registers: explicit bindings come first, then
   * registered types, then collected types, then interfaces with one implementation.
   */
  ghost predicate Finds(ts: TypeSystem, g: Graph, typ: Type, key: Option<Module>, g': Graph,
                        r: Outcome<Option<Resolver>>)
  {
    if Lookup(g, typ, key).Some? then r == Ok(Lookup(g, typ, key)) && g' == g
    else if Binding(g, typ, key).Some? then r == Err(NoTypeForBinding) && g' == g
    else if !Plain(ts, typ) then
      g' == WithGroups(ts, g, typ) && typ in g'.resolvers && r == Ok(Some(g'.resolvers[typ]))
    else if ts.isInterface(typ) then Binds(ts, g, typ, g', r)
    else r == Ok(None) && g' == g
  }

  /** A type that is collected, as opposed to its collection. */
  predicate IsElement(ts: TypeSystem, typ: Type) {
    ts.isMany(typ) || ts.isOnePer(typ)
  }

  /** Looking a type up disturbs nothing, except that a collected type may take over its collection. */
  lemma FindsUndisturbed(ts: TypeSystem, g: Graph, typ: Type, key: Option<Module>, g': Graph,
                         r: Outcome<Option<Resolver>>)
    requires Contents(ts, g) && Finds(ts, g, typ, key, g', r)
    ensures Undisturbed(g, g') || (IsElement(ts, typ) && r.Ok? && r.value.Some? && ForElements(r.value.value))
  {
    UndisturbedStill(g, g);
    if Lookup(g, typ, key).None? && Binding(g, typ, key).None? {
      if !Plain(ts, typ) {
        GroupsUndisturbed(ts, g, typ);
      } else if ts.isInterface(typ) {
        BindsUndisturbed(ts, g, typ, g', r);
      }
    }
  }

  lemma GroupsUndisturbed(ts: TypeSystem, g: Graph, typ: Type)
    requires Contents(ts, g) && typ !in g.resolvers && !Plain(ts, typ)
    ensures var g' := WithGroups(ts, g, typ);
            typ in g'.resolvers && (Undisturbed(g, g') || (IsElement(ts, typ) && ForElements(g'.resolvers[typ])))
  {
    ContentsLawful(ts, g);
    CollectedTypes(ts, typ);
    var e := ts.Elem(typ);
    if typ != e {
      NewCollection(g, WithGroups(ts, g, typ), e, typ);
    }
  }

  lemma NewCollection(g: Graph, g': Graph, e: Type, c: Type)
    requires c !in g.resolvers
    requires g' == WithSlice(g, e, c) || g' == WithTable(g, e, c)
    ensures Undisturbed(g, g')
  {
    assert Unfold(0) && Fold(0);
  }

  lemma BindsUndisturbed(ts: TypeSystem, g: Graph, typ: Type, g': Graph, r: Outcome<Option<Resolver>>)
    requires typ !in g.resolvers && Binds(ts, g, typ, g', r)
    ensures Undisturbed(g, g')
  {
    assert Unfold(0);
    var impls := Implementations(ts, g, typ);
    if |impls| == 1 {
      var t :| t in impls;
    }
  }

  // ---------------------------------------------------------------------------
  // Outputs
  // ---------------------------------------------------------------------------

  /** A provider of a slice of a many-per-container type provides elements of the group. */
  function Provided(ts: TypeSystem, typ: Type): Type {
    if ts.IsManySlice(typ) then ts.sliceElem(typ).value else typ
  }

  /** Looking up the type of the i-th output of a simple provider leads to that output. */
  ghost predicate Offers(ts: TypeSystem, g: Graph, n: nat, i: nat, typ: Type, key: Option<Module>) {
    var found := Lookup(g, typ, key);
    && found.Some?
    && match found.value
       case Simple(n', i', t) => n' == n && i' == i && t == typ && NameOf(g, typ, key) == typ && Plain(ts, typ)
       case GroupElem(e, _) => e in g.groups && Output(n, i) in g.groups[e]
       case GroupSlice(e, _) => e in g.groups && Output(n, i) in g.groups[e]
       case PerModuleElem(e, _) =>
         key.Some? && e in g.perModule && key.value in g.perModule[e] && g.perModule[e][key.value] == Output(n, i)
       case _ => false
  }

  lemma OffersKept(ts: TypeSystem, g: Graph, g': Graph, n: nat, i: nat, typ: Type, key: Option<Module>)
    requires Accumulates(ts, g, g') && Offers(ts, g, n, i, typ, key)
    ensures Offers(ts, g', n, i, typ, key)
  {
    assert Unfold(0);
    var name := NameOf(g, typ, key);
    assert NameOf(g', typ, key) == name;
    assert Keeps(ts, name, g.resolvers[name], g'.resolvers[name]);
  }

  /** The first `k` outputs of a simple provider can be resolved by their types. */
  ghost predicate OffersAll(ts: TypeSystem, g: Graph, n: nat, outputs: seq<Type>, key: Option<Module>, k: nat) {
    forall z: int {:trigger Unfold(z)} :: Guard(z) ==> exists w: int {:trigger Fold(w)} ::
      Fold(w) && forall i :: 0 <= i < k <= |outputs| ==> Offers(ts, g, n, i, Provided(ts, outputs[i]), key)
  }

  lemma OffersNone(ts: TypeSystem, g: Graph, n: nat, outputs: seq<Type>, key: Option<Module>)
    ensures OffersAll(ts, g, n, outputs, key, 0)
  {
    assert Unfold(0) && Fold(0);
  }

  lemma OffersNext(ts: TypeSystem, g: Graph, g': Graph, n: nat, outputs: seq<Type>, key: Option<Module>, i: nat)
    requires i < |outputs| && OffersAll(ts, g, n, outputs, key, i)
    requires Accumulates(ts, g, g') && Offers(ts, g', n, i, Provided(ts, outputs[i]), key)
    ensures OffersAll(ts, g', n, outputs, key, i + 1)
  {
    assert Unfold(0);
    forall j | 0 <= j < i + 1 ensures Offers(ts, g', n, j, Provided(ts, outputs[j]), key) {
      if j < i {
        OffersKept(ts, g, g', n, j, Provided(ts, outputs[j]), key);
      }
    }
  }

  /** The first `k` outputs of a module-scoped provider are what their types resolve to. */
  ghost predicate OffersScoped(g: Graph, n: nat, types: seq<Type>, k: nat) {
    forall z: int {:trigger Unfold(z)} :: Guard(z) ==> exists w: int {:trigger Fold(w)} ::
      && Fold(w)
      && forall i :: 0 <= i < k <= |types| ==>
           types[i] in g.resolvers && g.resolvers[types[i]] == Scoped(n, i, types[i])
  }

  lemma OffersScopedNone(g: Graph, n: nat, types: seq<Type>)
    ensures OffersScoped(g, n, types, 0)
  {
    assert Unfold(0) && Fold(0);
  }

  lemma OffersScopedNext(g: Graph, n: nat, types: seq<Type>, i: nat)
    requires i < |types| && types[i] !in g.resolvers && OffersScoped(g, n, types, i)
    ensures OffersScoped(WithResolver(g, types[i], Scoped(n, i, types[i])), n, types, i + 1)
  {
    assert Unfold(0);
  }

  lemma SimpleOffers(ts: TypeSystem, g: Graph, typ: Type, key: Option<Module>, n: nat, i: nat)
    requires typ !in g.resolvers && Binding(g, typ, key).None? && Plain(ts, typ)
    ensures Offers(ts, WithResolver(g, typ, Simple(n, i, typ)), n, i, typ, key)
  {
    var g' := WithResolver(g, typ, Simple(n, i, typ));
    assert NameOf(g', typ, key) == typ;
  }

  function WithMember(g: Graph, e: Type, o: Output): Graph
    requires e in g.groups
  {
    g.(groups := g.groups[e := g.groups[e] + [o]])
  }

  function WithTableEntry(g: Graph, e: Type, key: Module, o: Output): Graph
    requires e in g.perModule
  {
    g.(perModule := g.perModule[e := g.perModule[e][key := o]])
  }

  lemma MemberAdds(g: Graph, e: Type, o: Output)
    requires e in g.groups
    ensures var g' := WithMember(g, e, o);
            && g'.groups.Keys == g.groups.Keys && Output(o.node, o.idx) in g'.groups[e]
            && forall f :: f in g.groups ==> g.groups[f] <= g'.groups[f]
  {
    var g' := WithMember(g, e, o);
    assert g'.groups[e][|g.groups[e]|] == o;
  }

  lemma TableEntryAdds(g: Graph, e: Type, key: Module, o: Output)
    requires e in g.perModule && key !in g.perModule[e]
    ensures var g' := WithTableEntry(g, e, key, o);
            && g'.perModule.Keys == g.perModule.Keys && key in g'.perModule[e] && g'.perModule[e][key] == o
            && forall f :: f in g.perModule ==> TableGrows(g.perModule[f], g'.perModule[f])
  {
  }

  lemma MemberWellFormed(g: Graph, e: Type, o: Output)
    requires WellFormed(g) && e in g.groups && ValidOutput(g, o)
    ensures WellFormed(WithMember(g, e, o))
  {
    var g' := WithMember(g, e, o);
    forall t | t in g'.resolvers ensures ValidResolver(g', g'.resolvers[t]) {
      assert ValidResolver(g, g.resolvers[t]);
    }
    forall t, i | t in g'.groups && 0 <= i < |g'.groups[t]| ensures ValidOutput(g', g'.groups[t][i]) {
      assert t != e || i < |g.groups[t]| ==> ValidOutput(g, g.groups[t][i]);
    }
  }

  lemma MemberOk(ts: TypeSystem, g: Graph, e: Type, o: Output)
    requires Contents(ts, g) && e in g.groups && ValidOutput(g, o)
    ensures Contents(ts, WithMember(g, e, o)) && Accumulates(ts, g, WithMember(g, e, o))
  {
    ContentsParts(ts, g);
    MemberWellFormed(g, e, o);
    MemberAdds(g, e, o);
    SameEntries(ts, g, WithMember(g, e, o));
    ContentsAfter(ts, g, WithMember(g, e, o));
  }

  lemma TableEntryWellFormed(g: Graph, e: Type, key: Module, o: Output)
    requires WellFormed(g) && e in g.perModule && ValidOutput(g, o)
    ensures WellFormed(WithTableEntry(g, e, key, o))
  {
    var g' := WithTableEntry(g, e, key, o);
    forall t | t in g'.resolvers ensures ValidResolver(g', g'.resolvers[t]) {
      assert ValidResolver(g, g.resolvers[t]);
    }
    forall t, m | t in g'.perModule && m in g'.perModule[t] ensures ValidOutput(g', g'.perModule[t][m]) {
      assert t != e || m != key ==> ValidOutput(g, g.perModule[t][m]);
    }
  }

  lemma TableEntryOk(ts: TypeSystem, g: Graph, e: Type, key: Module, o: Output)
    requires Contents(ts, g) && e in g.perModule && key !in g.perModule[e] && ValidOutput(g, o)
    ensures Contents(ts, WithTableEntry(g, e, key, o)) && Accumulates(ts, g, WithTableEntry(g, e, key, o))
  {
    ContentsParts(ts, g);
    TableEntryWellFormed(g, e, key, o);
    TableEntryAdds(g, e, key, o);
    SameEntries(ts, g, WithTableEntry(g, e, key, o));
    ContentsAfter(ts, g, WithTableEntry(g, e, key, o));
  }

  // ---------------------------------------------------------------------------
  // Outputs that cannot be registered
  // ---------------------------------------------------------------------------

  /** Only the first `i` outputs of the provider `n` are registered under a type or in a table. */
  ghost predicate NoneFrom(g: Graph, n: nat, i: nat) {
    forall z: int {:trigger Unfold(z)} :: Guard(z) ==> exists w: int {:trigger Fold(w)} ::
      && Fold(w)
      && (forall t :: t in g.resolvers && g.resolvers[t].Simple? && g.resolvers[t].node == n ==> g.resolvers[t].idx < i)
      && (forall e, m :: e in g.perModule && m in g.perModule[e] && g.perModule[e][m].node == n ==>
            g.perModule[e][m].idx < i)
  }

  lemma NoneYet(ts: TypeSystem, g: Graph, node: Node)
    requires Contents(ts, g)
    ensures NoneFrom(g.(simple := g.simple + [node]), |g.simple|, 0)
  {
    ContentsParts(ts, g);
    forall t | t in g.resolvers && g.resolvers[t].Simple? ensures g.resolvers[t].node < |g.simple| {
      assert ValidResolver(g, g.resolvers[t]);
    }
    forall e, m | e in g.perModule && m in g.perModule[e] ensures g.perModule[e][m].node < |g.simple| {
      assert ValidOutput(g, g.perModule[e][m]);
    }
    assert Unfold(0) && Fold(0);
  }

  /** Looking a type up registers no output. */
  lemma FindsNone(ts: TypeSystem, g: Graph, typ: Type, key: Option<Module>, g': Graph, r: Outcome<Option<Resolver>>,
                  n: nat, i: nat)
    requires Finds(ts, g, typ, key, g', r) && NoneFrom(g, n, i)
    ensures NoneFrom(g', n, i)
  {
    if Lookup(g, typ, key).None? && Binding(g, typ, key).None? {
      if !Plain(ts, typ) {
        assert Unfold(0) && Fold(0);
      } else if ts.isInterface(typ) {
        BindsNone(ts, g, typ, g', r, n, i);
      }
    }
  }

  lemma BindsNone(ts: TypeSystem, g: Graph, typ: Type, g': Graph, r: Outcome<Option<Resolver>>, n: nat, i: nat)
    requires Binds(ts, g, typ, g', r) && NoneFrom(g, n, i)
    ensures NoneFrom(g', n, i)
  {
    assert Unfold(0);
    var impls := Implementations(ts, g, typ);
    if |impls| == 1 {
      var t :| t in impls;
    }
  }

  /** Only the first `i` outputs of the module-scoped provider `n` are registered. */
  ghost predicate NoneScopedFrom(g: Graph, n: nat, i: nat) {
    forall t :: t in g.resolvers && g.resolvers[t].Scoped? && g.resolvers[t].node == n ==> g.resolvers[t].idx < i
  }

  lemma NoneScopedYet(ts: TypeSystem, g: Graph, p: Provider)
    requires Contents(ts, g)
    ensures NoneScopedFrom(g.(scoped := g.scoped + [p]), |g.scoped|, 0)
  {
    ContentsParts(ts, g);
    forall t | t in g.resolvers && g.resolvers[t].Scoped? ensures g.resolvers[t].node < |g.scoped| {
      assert ValidResolver(g, g.resolvers[t]);
    }
  }

  lemma OneMoreType(g: Graph, n: nat, i: nat, typ: Type)
    requires NoneFrom(g, n, i)
    ensures NoneFrom(WithResolver(g, typ, Simple(n, i, typ)), n, i + 1)
  {
    assert Unfold(0);
  }

  lemma OneMoreMember(g: Graph, n: nat, i: nat, e: Type)
    requires NoneFrom(g, n, i) && e in g.groups
    ensures NoneFrom(WithMember(g, e, Output(n, i)), n, i + 1)
  {
    assert Unfold(0);
  }

  lemma OneMoreEntry(g: Graph, n: nat, i: nat, e: Type, m: Module)
    requires NoneFrom(g, n, i) && e in g.perModule
    ensures NoneFrom(WithTableEntry(g, e, m, Output(n, i)), n, i + 1)
  {
    assert Unfold(0);
  }
}
