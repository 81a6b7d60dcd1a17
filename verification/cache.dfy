/** The per-client state of the code emitter (packages/emitter/src/generators/cache.ts).
    Both caches are JavaScript `Map`s keyed by IR node identity, so a cache is modelled
    by its insertion order together with a finite map from node id to entry; the two
    import collections are insertion-ordered sets. */
module Cache {
  import opened Wrappers
  import opened Strings
  import opened Ordered
  import opened Ir

  /** A generated interface: its name, its text and whether it is written in place. An
      entry whose text is still empty is being generated. */
  datatype CachedInterface = CachedInterface(name: string, generatedText: string, inline: bool)

  /** An identity-keyed `Map` over node ids: `order` lists the keys in insertion order. */
  datatype Cached = Cached(order: seq<nat>, entries: map<nat, CachedInterface>)

  predicate CachedOk(c: Cached) {
    NoDuplicates(c.order) && c.entries.Keys == set k | k in c.order
  }

  function EmptyCached(): (r: Cached)
    ensures CachedOk(r) && r.entries == map[]
  {
    Cached([], map[])
  }

  /** `Map.prototype.set`: a known key keeps its place, a new key goes last. */
  function Put(c: Cached, k: nat, e: CachedInterface): (r: Cached)
    requires CachedOk(c)
    ensures CachedOk(r)
    ensures r.entries == c.entries[k := e]
    ensures r.order == Add(c.order, k)
  {
    if k in c.entries then c.(entries := c.entries[k := e]) else Cached(c.order + [k], c.entries[k := e])
  }

  /** The entries in insertion order (`Map.prototype.values`). */
  function CachedValues(c: Cached): (r: seq<CachedInterface>)
    requires CachedOk(c)
    ensures |r| == |c.order|
    ensures forall i :: 0 <= i < |r| ==> r[i] == c.entries[c.order[i]]
  {
    seq(|c.order|, i requires 0 <= i < |c.order| => c.entries[c.order[i]])
  }

  /** The same cache as the pair list of the insertion-ordered map model. */
  function AsOrderedMap(c: Cached): (r: OrderedMap<nat, CachedInterface>)
    requires CachedOk(c)
  {
    seq(|c.order|, i requires 0 <= i < |c.order| => (c.order[i], c.entries[c.order[i]]))
  }

  /** The pair-list view has distinct keys and the same lookups as the cache. */
  lemma AsOrderedMapGet(c: Cached, k: nat)
    requires CachedOk(c)
    ensures KeysUnique(AsOrderedMap(c))
    ensures Get(AsOrderedMap(c), k) == if k in c.entries then Some(c.entries[k]) else None
  {
    var m := AsOrderedMap(c);
    assert Keys(m) == c.order;
    if k in c.entries {
      var i :| 0 <= i < |c.order| && c.order[i] == k;
      FindUnique(m, i);
    }
  }

  /** `Put` is `Map.prototype.set` on the pair-list view. */
  lemma PutIsSet(c: Cached, k: nat, e: CachedInterface)
    requires CachedOk(c)
    ensures AsOrderedMap(Put(c, k, e)) == Set(AsOrderedMap(c), k, e)
  {
    if k in c.entries {
      var i :| 0 <= i < |c.order| && c.order[i] == k;
      PutKnown(c, i, e);
    } else {
      PutNew(c, k, e);
    }
  }

  lemma PutKnown(c: Cached, i: nat, e: CachedInterface)
    requires CachedOk(c) && i < |c.order|
    ensures AsOrderedMap(Put(c, c.order[i], e)) == Set(AsOrderedMap(c), c.order[i], e)
  {
    var m := AsOrderedMap(c);
    var k := c.order[i];
    assert Keys(m) == c.order;
    FindUnique(m, i);
    assert Set(m, k, e) == m[i := (k, e)];
  }

  lemma PutNew(c: Cached, k: nat, e: CachedInterface)
    requires CachedOk(c) && k !in c.entries
    ensures AsOrderedMap(Put(c, k, e)) == Set(AsOrderedMap(c), k, e)
  {
    var m := AsOrderedMap(c);
    assert Keys(m) == c.order;
    assert Find(m, k).None?;
    assert Set(m, k, e) == m + [(k, e)];
  }

  /** The state one client's emission threads through its operations. */
  datatype ClientContext = ClientContext(
    interfaceCache: Cached,
    responseCache: Cached,
    extraCorePipelineImports: seq<string>,
    extraClientLibImports: seq<string>)

  /** A result of the emitter together with the state after producing it. */
  datatype Emitted<T> = Emitted(value: T, ctx: ClientContext)

  /** The empty state each client starts from. */
  function FreshClientContext(): (r: ClientContext)
    ensures CachedOk(r.interfaceCache) && CachedOk(r.responseCache)
    ensures r.interfaceCache.entries == map[] && r.responseCache.entries == map[]
    ensures r.extraCorePipelineImports == [] && r.extraClientLibImports == []
  {
    ClientContext(EmptyCached(), EmptyCached(), [], [])
  }

  /** The state invariant: both caches are well-formed maps, every interface entry
      describes the model it is keyed by, every response entry is a named interface
      `<operation>Response`, and the import collections hold each name once and only
      the names the emitter adds. */
  predicate ContextOk(models: seq<ModelDecl>, ctx: ClientContext) {
    CachedOk(ctx.interfaceCache) && CachedOk(ctx.responseCache) &&
    (forall k :: k in ctx.interfaceCache.entries ==> EntryDescribes(models, k, ctx.interfaceCache.entries[k])) &&
    (forall k :: k in ctx.responseCache.entries ==> ResponseEntry(ctx.responseCache.entries[k])) &&
    NoDuplicates(ctx.extraCorePipelineImports) && NoDuplicates(ctx.extraClientLibImports) &&
    ImportsKnown(ctx)
  }

  predicate ResponseEntry(e: CachedInterface) {
    !e.inline && EndsWith(e.name, "Response")
  }

  /** The extra imports the emitter adds: `RestError` from the core pipeline, and
      `replacePathParameters` and `getHeader` from the client library. */
  predicate ImportsKnown(ctx: ClientContext) {
    (forall x :: x in ctx.extraCorePipelineImports ==> x == "RestError") &&
    (forall x :: x in ctx.extraClientLibImports ==> x == "replacePathParameters" || x == "getHeader")
  }

  /** The interface entry of model `k` carries the model's name and is inline iff that
      name is empty. */
  predicate EntryDescribes(models: seq<ModelDecl>, k: ModelId, e: CachedInterface) {
    k < |models| && e.name == models[k].name && e.inline == (models[k].name == [])
  }

  /** Storing an entry that describes its model keeps the state invariant. */
  lemma PutDescribedOk(models: seq<ModelDecl>, ctx: ClientContext, k: ModelId, e: CachedInterface)
    requires ContextOk(models, ctx) && EntryDescribes(models, k, e)
    ensures ContextOk(models, ctx.(interfaceCache := Put(ctx.interfaceCache, k, e)))
  {
    var c := ctx.(interfaceCache := Put(ctx.interfaceCache, k, e));
    assert forall j :: j in c.interfaceCache.entries ==> EntryDescribes(models, j, c.interfaceCache.entries[j]);
  }

  lemma PutResponseOk(models: seq<ModelDecl>, ctx: ClientContext, k: ResponseId, e: CachedInterface)
    requires ContextOk(models, ctx) && ResponseEntry(e)
    ensures ContextOk(models, ctx.(responseCache := Put(ctx.responseCache, k, e)))
  {
    var c := ctx.(responseCache := Put(ctx.responseCache, k, e));
    assert forall j :: j in c.responseCache.entries ==> ResponseEntry(c.responseCache.entries[j]);
  }

  lemma FreshContextOk(models: seq<ModelDecl>)
    ensures ContextOk(models, FreshClientContext())
  {
  }

  /** `c2` extends `c1`: old keys keep their place and their entries. */
  predicate CachedGrows(c1: Cached, c2: Cached) {
    |c1.order| <= |c2.order| && c2.order[..|c1.order|] == c1.order &&
    forall k :: k in c1.entries ==> k in c2.entries && c2.entries[k] == c1.entries[k]
  }

  lemma CachedGrowsTrans(a: Cached, b: Cached, c: Cached)
    requires CachedGrows(a, b) && CachedGrows(b, c)
    ensures CachedGrows(a, c)
  {
    assert c.order[..|a.order|] == c.order[..|b.order|][..|a.order|];
  }

  /** The import collections of `c2` extend those of `c1`. */
  predicate ImportsGrow(c1: ClientContext, c2: ClientContext) {
    |c1.extraCorePipelineImports| <= |c2.extraCorePipelineImports| &&
    c2.extraCorePipelineImports[..|c1.extraCorePipelineImports|] == c1.extraCorePipelineImports &&
    |c1.extraClientLibImports| <= |c2.extraClientLibImports| &&
    c2.extraClientLibImports[..|c1.extraClientLibImports|] == c1.extraClientLibImports
  }

  /** Everything the emitter does to its state only adds: no entry or import is lost. */
  predicate ContextGrows(c1: ClientContext, c2: ClientContext) {
    CachedGrows(c1.interfaceCache, c2.interfaceCache) &&
    CachedGrows(c1.responseCache, c2.responseCache) &&
    ImportsGrow(c1, c2)
  }

  lemma ContextGrowsTrans(a: ClientContext, b: ClientContext, c: ClientContext)
    requires ContextGrows(a, b) && ContextGrows(b, c)
    ensures ContextGrows(a, c)
  {
    CachedGrowsTrans(a.interfaceCache, b.interfaceCache, c.interfaceCache);
    CachedGrowsTrans(a.responseCache, b.responseCache, c.responseCache);
    assert c.extraCorePipelineImports[..|a.extraCorePipelineImports|]
      == c.extraCorePipelineImports[..|b.extraCorePipelineImports|][..|a.extraCorePipelineImports|];
    assert c.extraClientLibImports[..|a.extraClientLibImports|]
      == c.extraClientLibImports[..|b.extraClientLibImports|][..|a.extraClientLibImports|];
  }

  lemma ContextGrowsRefl(c: ClientContext)
    ensures ContextGrows(c, c)
  {
  }

  /** `Set.prototype.add` on the core-pipeline import set. */
  function AddCoreImport(ctx: ClientContext, name: string): ClientContext {
    ctx.(extraCorePipelineImports := Add(ctx.extraCorePipelineImports, name))
  }

  /** `Set.prototype.add` on the client-library import set. */
  function AddClientLibImport(ctx: ClientContext, name: string): ClientContext {
    ctx.(extraClientLibImports := Add(ctx.extraClientLibImports, name))
  }

  lemma AddImportGrows(ctx: ClientContext, name: string)
    ensures ContextGrows(ctx, AddCoreImport(ctx, name)) && ContextGrows(ctx, AddClientLibImport(ctx, name))
    ensures name in AddCoreImport(ctx, name).extraCorePipelineImports
    ensures name in AddClientLibImport(ctx, name).extraClientLibImports
  {
  }

  /** What rendering may do to the state: keep the invariant, only add entries and
      imports, and finish every entry it adds. */
  predicate Advances(models: seq<ModelDecl>, c1: ClientContext, c2: ClientContext) {
    ContextOk(models, c2) && ContextGrows(c1, c2) &&
    NewFinished(c1.interfaceCache, c2.interfaceCache) && NewFinished(c1.responseCache, c2.responseCache)
  }

  /** Every entry of `c2` that `c1` lacks has its text. */
  predicate NewFinished(c1: Cached, c2: Cached) {
    forall k :: k in c2.entries && k !in c1.entries ==> c2.entries[k].generatedText != []
  }

  lemma AdvancesTrans(models: seq<ModelDecl>, a: ClientContext, b: ClientContext, c: ClientContext)
    requires Advances(models, a, b) && Advances(models, b, c)
    ensures Advances(models, a, c)
  {
    ContextGrowsTrans(a, b, c);
  }

  lemma AdvancesRefl(models: seq<ModelDecl>, c: ClientContext)
    requires ContextOk(models, c)
    ensures Advances(models, c, c)
  {
  }

  /** Adding one of the emitter's imports keeps the invariant. */
  lemma AddImportAdvances(models: seq<ModelDecl>, ctx: ClientContext)
    requires ContextOk(models, ctx)
    ensures Advances(models, ctx, AddCoreImport(ctx, "RestError"))
    ensures Advances(models, ctx, AddClientLibImport(ctx, "replacePathParameters"))
    ensures Advances(models, ctx, AddClientLibImport(ctx, "getHeader"))
  {
  }
}
