/** The type translator of packages/emitter/src/modeler/common.ts.
    `CreateRestType` maps a node of the host's type graph to a REST type, threading the
    translation context through every call. A plain model is entered into `modelCache`
    before its properties are translated, so a model reachable from itself resolves to
    the node already being built and the translation terminates.

    Beside the stateful translator stands a stateless reference, `Translation`, which
    reads a finished cache instead of building one. The translator's contract is that
    its result is exactly the reference translation under the cache it leaves behind,
    and that every model node it builds holds exactly the reference properties. */
module Common {
  import opened Wrappers
  import opened Ordered
  import opened Ir
  import opened Source

  /** The modeler's `Context`: the two identity-keyed caches, together with the arenas
      of the model and response nodes they point to. */
  datatype Context = Context(
    modelCache: map<SrcId, ModelId>,
    models: seq<ModelDecl>,
    responseCache: map<SrcId, ResponseId>,
    responses: seq<Response>)

  /** A result together with the context after computing it. */
  datatype Threaded<T> = Threaded(value: T, ctx: Context)

  function EmptyContext(): (r: Context)
    ensures r.modelCache == map[] && r.responseCache == map[]
  {
    Context(map[], [], map[], [])
  }

  /** The caches point into the arenas, distinct keys have distinct nodes, and every
      node of an arena is the target of some key. */
  ghost predicate CtxOk(g: Graph, ctx: Context) {
    ModelCacheOk(g, ctx.modelCache, ctx.models) && ResponseCacheOk(g, ctx.responseCache, ctx.responses)
  }

  /** No two keys share an index. */
  predicate Injective<K>(m: map<K, nat>) {
    forall k1, k2 :: k1 in m && k2 in m && k1 != k2 ==> m[k1] != m[k2]
  }

  ghost predicate ModelCacheOk(g: Graph, cache: map<SrcId, ModelId>, models: seq<ModelDecl>) {
    (forall k :: k in cache ==> k in g && IsPlainModel(g[k]) && cache[k] < |models|) &&
    Injective(cache) &&
    |cache.Keys| == |models|
  }

  ghost predicate ResponseCacheOk(g: Graph, cache: map<SrcId, ResponseId>, responses: seq<Response>) {
    (forall k :: k in cache ==> k in g && g[k].SModel? && cache[k] < |responses|) &&
    Injective(cache) &&
    |cache.Keys| == |responses|
  }

  lemma EmptyContextOk(g: Graph)
    ensures CtxOk(g, EmptyContext())
  {
  }

  /** Every entry of `c1` is still in `c2`, unchanged. */
  predicate CacheGrows(c1: map<SrcId, nat>, c2: map<SrcId, nat>) {
    forall k :: k in c1 ==> k in c2 && c2[k] == c1[k]
  }

  /** The model side only grows: cache entries and existing nodes stay as they are. */
  predicate ModelsGrow(c1: Context, c2: Context) {
    CacheGrows(c1.modelCache, c2.modelCache) &&
    |c1.models| <= |c2.models| && c2.models[..|c1.models|] == c1.models
  }

  predicate ResponsesGrow(c1: Context, c2: Context) {
    CacheGrows(c1.responseCache, c2.responseCache) &&
    |c1.responses| <= |c2.responses| && c2.responses[..|c1.responses|] == c1.responses
  }

  // ---------------------------------------------------------------------------
  // The termination measure

  ghost function PlainModelIds(g: Graph): set<SrcId> {
    set id | id in g && IsPlainModel(g[id])
  }

  /** The number of plain models not yet cached: each new model node lowers it. */
  ghost function Uncached(g: Graph, ctx: Context): nat {
    |PlainModelIds(g) - ctx.modelCache.Keys|
  }

  lemma UncachedMono(g: Graph, c1: Context, c2: Context)
    requires CacheGrows(c1.modelCache, c2.modelCache)
    ensures Uncached(g, c2) <= Uncached(g, c1)
  {
    assert PlainModelIds(g) - c2.modelCache.Keys <= PlainModelIds(g) - c1.modelCache.Keys;
    SubsetCard(PlainModelIds(g) - c2.modelCache.Keys, PlainModelIds(g) - c1.modelCache.Keys);
  }

  lemma UncachedInsert(g: Graph, ctx: Context, id: SrcId, m: ModelId)
    requires id in g && IsPlainModel(g[id]) && id !in ctx.modelCache
    ensures Uncached(g, ctx.(modelCache := ctx.modelCache[id := m])) < Uncached(g, ctx)
  {
    var a := PlainModelIds(g) - ctx.modelCache.Keys;
    var b := PlainModelIds(g) - ctx.modelCache[id := m].Keys;
    assert id in a && b == a - {id};
  }

  lemma SubsetCard<T>(a: set<T>, b: set<T>)
    requires a <= b
    ensures |a| <= |b|
  {
    assert b == a + (b - a);
  }

  // ---------------------------------------------------------------------------
  // The reference translation

  /** The intrinsic names with a scalar translation. */
  const NumberNames: set<string> :=
    {"int8", "int16", "int32", "int64", "float32", "float64", "safeint",
     "uint8", "uint16", "uint32", "uint64"}

  /** The intrinsic switch, apart from "Map": booleans, the number family, and the two
      string-like intrinsics; every other name has no translation. */
  function IntrinsicScalar(name: string): (r: Option<RestType>)
    ensures r == Some(BooleanType(None)) <==> name == "boolean"
    ensures r == Some(NumberType(None)) <==> name in NumberNames
    ensures r == Some(StringType(None)) <==> name == "string" || name == "zonedDateTime"
    ensures r.Some? <==> name == "boolean" || name in NumberNames || name == "string" || name == "zonedDateTime"
  {
    if name == "boolean" then Some(BooleanType(None))
    else if name in NumberNames then Some(NumberType(None))
    else if name == "string" || name == "zonedDateTime" then Some(StringType(None))
    else None
  }

  lemma NodeIsClosed(g: Graph, id: SrcId)
    requires WellFormed(g) && id in g
    ensures NodeClosed(g, g[id])
  {
  }

  /** Whether a node has a translation at all, independently of any cache. */
  ghost predicate Translatable(g: Graph, id: SrcId)
    requires WellFormed(g) && id in g
    decreases Rank(g, id)
  {
    RankEdges(g, id);
    NodeIsClosed(g, id);
    match g[id]
    case SArray(e) => Translatable(g, e)
    case SModel(_, iname, _, props, _, _) =>
      if IsIntrinsic(g[id]) then
        if iname.value == "Map" then
          FindProp(props, "v").Some? && Translatable(g, FindProp(props, "v").value.typ)
        else IntrinsicScalar(iname.value).Some?
      else true
    case SOther(_) => false
    case _ => true
  }

  /** The translation of a node when `cache` already holds the model nodes: what
      `createRestType` computes, without building anything. */
  ghost function Translation(g: Graph, cache: map<SrcId, ModelId>, id: SrcId): Option<RestType>
    requires WellFormed(g) && id in g
    decreases Rank(g, id), 1, 0
  {
    RankEdges(g, id);
    NodeIsClosed(g, id);
    match g[id]
    case SArray(e) =>
      (match Translation(g, cache, e)
       case Some(t) => Some(ArrayType(t))
       case None => None)
    case SModel(_, iname, _, props, _, _) =>
      if IsIntrinsic(g[id]) then
        if iname.value == "Map" then
          (match FindProp(props, "v")
           case None => None
           case Some(v) =>
             match Translation(g, cache, v.typ)
             case Some(t) => Some(MapType(t))
             case None => None)
        else IntrinsicScalar(iname.value)
      else if id in cache then Some(ModelType(cache[id]))
      else None
    case SBoolean(b) => Some(BooleanType(Some(b)))
    case SNumber(n) => Some(NumberType(Some(n)))
    case SString(s) => Some(StringType(Some(s)))
    case SUnion(options) => Some(UnionType(TranslationOptions(g, cache, id, 0)))
    case SOther(_) => None
  }

  /** The translations of the union's options from position `k` on, failing ones left out. */
  ghost function TranslationOptions(g: Graph, cache: map<SrcId, ModelId>, id: SrcId, k: nat): seq<RestType>
    requires WellFormed(g) && id in g && g[id].SUnion? && k <= |g[id].options|
    decreases Rank(g, id), 0, |g[id].options| - k
  {
    if k == |g[id].options| then []
    else
      var o := g[id].options[k];
      RankEdges(g, id);
      NodeIsClosed(g, id);
      assert o in g[id].options;
      var t := Translation(g, cache, o);
      (if t.Some? then [t.value] else []) + TranslationOptions(g, cache, id, k + 1)
  }

  /** A reference translation never disagrees with `Translatable`. */
  lemma {:induction false} TranslationSound(g: Graph, cache: map<SrcId, ModelId>, id: SrcId)
    requires WellFormed(g) && id in g
    ensures Translation(g, cache, id).Some? ==> Translatable(g, id)
    decreases Rank(g, id)
  {
    RankEdges(g, id);
    NodeIsClosed(g, id);
    match g[id]
    case SArray(e) => TranslationSound(g, cache, e);
    case SModel(_, iname, _, props, _, _) =>
      if IsIntrinsic(g[id]) && iname.value == "Map" && FindProp(props, "v").Some? {
        TranslationSound(g, cache, FindProp(props, "v").value.typ);
      }
    case _ =>
  }

  /** Every plain model the translation of `id` reaches without passing through another
      plain model is in `cache`: the translator has visited everything below `id`. */
  ghost predicate Settled(g: Graph, cache: map<SrcId, ModelId>, id: SrcId)
    requires WellFormed(g) && id in g
    decreases Rank(g, id)
  {
    RankEdges(g, id);
    NodeIsClosed(g, id);
    match g[id]
    case SArray(e) => Settled(g, cache, e)
    case SModel(_, iname, _, props, _, _) =>
      if IsIntrinsic(g[id]) then
        iname.value == "Map" && FindProp(props, "v").Some? ==> Settled(g, cache, FindProp(props, "v").value.typ)
      else id in cache
    case SUnion(options) => forall o :: o in options ==> Settled(g, cache, o)
    case _ => true
  }

  /** Under a settled cache, a node translates exactly when it is translatable. */
  lemma {:induction false} SettledTranslates(g: Graph, cache: map<SrcId, ModelId>, id: SrcId)
    requires WellFormed(g) && id in g && Settled(g, cache, id)
    ensures Translation(g, cache, id).Some? <==> Translatable(g, id)
    decreases Rank(g, id)
  {
    RankEdges(g, id);
    NodeIsClosed(g, id);
    match g[id]
    case SArray(e) => SettledTranslates(g, cache, e);
    case SModel(_, iname, _, props, _, _) =>
      if IsIntrinsic(g[id]) && iname.value == "Map" && FindProp(props, "v").Some? {
        SettledTranslates(g, cache, FindProp(props, "v").value.typ);
      }
    case _ =>
  }

  lemma {:induction false} SettledMono(g: Graph, c1: map<SrcId, ModelId>, c2: map<SrcId, ModelId>, id: SrcId)
    requires WellFormed(g) && id in g && CacheGrows(c1, c2) && Settled(g, c1, id)
    ensures Settled(g, c2, id)
    decreases Rank(g, id)
  {
    RankEdges(g, id);
    NodeIsClosed(g, id);
    match g[id]
    case SArray(e) => SettledMono(g, c1, c2, e);
    case SModel(_, iname, _, props, _, _) =>
      if IsIntrinsic(g[id]) && iname.value == "Map" && FindProp(props, "v").Some? {
        SettledMono(g, c1, c2, FindProp(props, "v").value.typ);
      }
    case SUnion(options) =>
      forall o | o in options ensures Settled(g, c2, o) {
        SettledMono(g, c1, c2, o);
      }
    case _ =>
  }

  /** Growing a settled cache changes no translation. */
  lemma {:induction false} TranslationMono(g: Graph, c1: map<SrcId, ModelId>, c2: map<SrcId, ModelId>, id: SrcId)
    requires WellFormed(g) && id in g && CacheGrows(c1, c2) && Settled(g, c1, id)
    ensures Translation(g, c2, id) == Translation(g, c1, id)
    decreases Rank(g, id), 1
  {
    RankEdges(g, id);
    NodeIsClosed(g, id);
    match g[id]
    case SArray(e) => TranslationMono(g, c1, c2, e);
    case SModel(_, iname, _, props, _, _) =>
      if IsIntrinsic(g[id]) && iname.value == "Map" && FindProp(props, "v").Some? {
        TranslationMono(g, c1, c2, FindProp(props, "v").value.typ);
      }
    case SUnion(_) => TranslationOptionsMono(g, c1, c2, id, 0);
    case _ =>
  }

  lemma {:induction false} TranslationOptionsMono(g: Graph, c1: map<SrcId, ModelId>, c2: map<SrcId, ModelId>, id: SrcId, k: nat)
    requires WellFormed(g) && id in g && g[id].SUnion? && k <= |g[id].options| && CacheGrows(c1, c2)
    requires Settled(g, c1, id)
    ensures TranslationOptions(g, c2, id, k) == TranslationOptions(g, c1, id, k)
    decreases Rank(g, id), 0, |g[id].options| - k
  {
    if k < |g[id].options| {
      var o := g[id].options[k];
      RankEdges(g, id);
      NodeIsClosed(g, id);
      assert o in g[id].options;
      TranslationMono(g, c1, c2, o);
      TranslationOptionsMono(g, c1, c2, id, k + 1);
    }
  }

  // ---------------------------------------------------------------------------
  // Model properties

  /** The property record `createModelProperty` builds once the type is known: a header
      property carries the header field name as its serialized name, a body property has
      location body, any other none. */
  function PropertyFrom(p: SrcProp, t: RestType): (r: ModelProperty)
    ensures r.name == p.name && r.optional == p.optional && r.typ == t
    ensures r.location == Some(HeaderProp) <==> p.isHeader
    ensures r.location == Some(BodyProp) <==> !p.isHeader && p.isBody
    ensures r.location.None? <==> !p.isHeader && !p.isBody
    ensures r.serializedName == (if p.isHeader then p.headerFieldName else None)
  {
    var location := if p.isHeader then Some(HeaderProp) else if p.isBody then Some(BodyProp) else None;
    var serializedName := if p.isHeader then p.headerFieldName else None;
    ModelProperty(p.name, serializedName, p.optional, location, t)
  }

  /** The reference `createModelProperty`: fails exactly when the type fails. */
  ghost function PropertyOf(g: Graph, cache: map<SrcId, ModelId>, p: SrcProp): Option<ModelProperty>
    requires WellFormed(g) && p.typ in g
  {
    match Translation(g, cache, p.typ)
    case Some(t) => Some(PropertyFrom(p, t))
    case None => None
  }

  /** `properties.set(name, property)` when there is a property. */
  function AddProperty(acc: OrderedMap<string, ModelProperty>, name: string, p: Option<ModelProperty>): OrderedMap<string, ModelProperty> {
    if p.Some? then Set(acc, name, p.value) else acc
  }

  ghost predicate AllIn(g: Graph, ps: seq<SrcProp>) {
    forall p :: p in ps ==> p.typ in g
  }

  /** The property map built from `acc` by adding the translatable properties of `ps`, in
      order. */
  ghost function ExpectedPropsFrom(g: Graph, cache: map<SrcId, ModelId>, acc: OrderedMap<string, ModelProperty>, ps: seq<SrcProp>): OrderedMap<string, ModelProperty>
    requires WellFormed(g) && AllIn(g, ps)
    decreases |ps|
  {
    if ps == [] then acc
    else ExpectedPropsFrom(g, cache, AddProperty(acc, ps[0].name, PropertyOf(g, cache, ps[0])), ps[1..])
  }

  ghost function ExpectedProps(g: Graph, cache: map<SrcId, ModelId>, ps: seq<SrcProp>): OrderedMap<string, ModelProperty>
    requires WellFormed(g) && AllIn(g, ps)
  {
    ExpectedPropsFrom(g, cache, [], ps)
  }

  ghost predicate PropsSettled(g: Graph, cache: map<SrcId, ModelId>, ps: seq<SrcProp>)
    requires WellFormed(g) && AllIn(g, ps)
  {
    forall p :: p in ps ==> Settled(g, cache, p.typ)
  }

  lemma {:induction false} ExpectedPropsMono(g: Graph, c1: map<SrcId, ModelId>, c2: map<SrcId, ModelId>, acc: OrderedMap<string, ModelProperty>, ps: seq<SrcProp>)
    requires WellFormed(g) && AllIn(g, ps) && CacheGrows(c1, c2) && PropsSettled(g, c1, ps)
    ensures ExpectedPropsFrom(g, c2, acc, ps) == ExpectedPropsFrom(g, c1, acc, ps)
    ensures PropsSettled(g, c2, ps)
    decreases |ps|
  {
    if ps != [] {
      assert ps[0] in ps;
      TranslationMono(g, c1, c2, ps[0].typ);
      SettledMono(g, c1, c2, ps[0].typ);
      assert forall p :: p in ps[1..] ==> p in ps;
      ExpectedPropsMono(g, c1, c2, AddProperty(acc, ps[0].name, PropertyOf(g, c1, ps[0])), ps[1..]);
    }
  }

  /** The model node of plain model `k` is finished: it has the model's name and
      discriminator, and exactly the reference properties of all its properties (base
      first), every one of which has been settled. */
  ghost predicate Complete(g: Graph, ctx: Context, k: SrcId) {
    WellFormed(g) && k in g && IsPlainModel(g[k]) && k in ctx.modelCache && ctx.modelCache[k] < |ctx.models| &&
    var ps := AllModelProperties(g, k);
    PropsSettled(g, ctx.modelCache, ps) &&
    ctx.models[ctx.modelCache[k]] == ModelDecl(g[k].name, g[k].discriminator, ExpectedProps(g, ctx.modelCache, ps))
  }

  /** Every model node created between `c1` and `c2` is finished. */
  ghost predicate NewComplete(g: Graph, c1: Context, c2: Context) {
    forall k :: k in c2.modelCache && k !in c1.modelCache ==> Complete(g, c2, k)
  }

  /** The contract shared by every step of the translator. */
  ghost predicate Evolves(g: Graph, c1: Context, c2: Context) {
    CtxOk(g, c2) && ModelsGrow(c1, c2) && c2.responseCache == c1.responseCache &&
    c2.responses == c1.responses && NewComplete(g, c1, c2)
  }

  lemma CompleteMono(g: Graph, c1: Context, c2: Context, k: SrcId)
    requires Complete(g, c1, k) && ModelsGrow(c1, c2)
    ensures Complete(g, c2, k)
  {
    var ps := AllModelProperties(g, k);
    ExpectedPropsMono(g, c1.modelCache, c2.modelCache, [], ps);
    assert c2.models[c1.modelCache[k]] == c2.models[..|c1.models|][c1.modelCache[k]];
  }

  lemma ModelsGrowTrans(c1: Context, c2: Context, c3: Context)
    requires ModelsGrow(c1, c2) && ModelsGrow(c2, c3)
    ensures ModelsGrow(c1, c3)
  {
    assert c3.models[..|c1.models|] == c3.models[..|c2.models|][..|c1.models|];
  }

  lemma NewCompleteTrans(g: Graph, c1: Context, c2: Context, c3: Context)
    requires NewComplete(g, c1, c2) && NewComplete(g, c2, c3) && ModelsGrow(c2, c3)
    ensures NewComplete(g, c1, c3)
  {
    forall k | k in c3.modelCache && k !in c1.modelCache
      ensures Complete(g, c3, k)
    {
      if k in c2.modelCache {
        CompleteMono(g, c2, c3, k);
      }
    }
  }

  lemma EvolvesTrans(g: Graph, c1: Context, c2: Context, c3: Context)
    requires Evolves(g, c1, c2) && Evolves(g, c2, c3)
    ensures Evolves(g, c1, c3)
  {
    ModelsGrowTrans(c1, c2, c3);
    NewCompleteTrans(g, c1, c2, c3);
  }

  /** Every model node in the cache is finished. */
  ghost predicate ModelsDone(g: Graph, ctx: Context) {
    forall k :: k in ctx.modelCache ==> Complete(g, ctx, k)
  }

  /** A translator step keeps every cached model node finished. */
  lemma EvolvesModelsDone(g: Graph, c1: Context, c2: Context)
    requires ModelsDone(g, c1) && Evolves(g, c1, c2)
    ensures ModelsDone(g, c2)
  {
    forall k | k in c2.modelCache ensures Complete(g, c2, k) {
      if k in c1.modelCache {
        CompleteMono(g, c1, c2, k);
      }
    }
  }

  lemma EvolvesRefl(g: Graph, c: Context)
    requires CtxOk(g, c)
    ensures Evolves(g, c, c)
  {
  }

  // ---------------------------------------------------------------------------
  // The translator

  /** `createRestType(context, type)`. */
  function CreateRestType(g: Graph, ctx: Context, id: SrcId): (r: Threaded<Option<RestType>>)
    requires WellFormed(g) && id in g && CtxOk(g, ctx)
    ensures Evolves(g, ctx, r.ctx)
    ensures Settled(g, r.ctx.modelCache, id)
    ensures r.value == Translation(g, r.ctx.modelCache, id)
    ensures r.value.Some? <==> Translatable(g, id)
    decreases Uncached(g, ctx), 0, Rank(g, id), 2, 0
  {
    RankEdges(g, id);
    NodeIsClosed(g, id);
    EvolvesRefl(g, ctx);
    match g[id]
    case SArray(e) =>
      var el := CreateRestType(g, ctx, e);
      Threaded(if el.value.Some? then Some(ArrayType(el.value.value)) else None, el.ctx)
    case SModel(_, iname, _, props, _, _) =>
      if IsIntrinsic(g[id]) then
        if iname.value == "Map" then CreateMapType(g, ctx, id)
        else Threaded(IntrinsicScalar(iname.value), ctx)
      else if id in ctx.modelCache then Threaded(Some(ModelType(ctx.modelCache[id])), ctx)
      else CreateModelType(g, ctx, id)
    case SBoolean(b) => Threaded(Some(BooleanType(Some(b))), ctx)
    case SNumber(n) => Threaded(Some(NumberType(Some(n))), ctx)
    case SString(s) => Threaded(Some(StringType(Some(s))), ctx)
    case SUnion(options) =>
      var opts := CreateUnionOptions(g, ctx, id, 0);
      UnionSettled(g, opts.ctx.modelCache, id);
      Threaded(Some(UnionType(opts.value)), opts.ctx)
    case SOther(_) => Threaded(None, ctx)
  }

  lemma UnionSettled(g: Graph, cache: map<SrcId, ModelId>, id: SrcId)
    requires WellFormed(g) && id in g && g[id].SUnion?
    requires forall j :: 0 <= j < |g[id].options| ==> g[id].options[j] in g && Settled(g, cache, g[id].options[j])
    ensures Settled(g, cache, id)
  {
    forall o | o in g[id].options ensures Settled(g, cache, o) {
      var j :| 0 <= j < |g[id].options| && g[id].options[j] == o;
    }
  }

  /** `createMapType`: a map over the translation of the "v" property; fails when there is
      no such property or its type fails. */
  function CreateMapType(g: Graph, ctx: Context, id: SrcId): (r: Threaded<Option<RestType>>)
    requires WellFormed(g) && id in g && CtxOk(g, ctx)
    requires IsIntrinsic(g[id]) && g[id].intrinsicName.value == "Map"
    ensures Evolves(g, ctx, r.ctx)
    ensures Settled(g, r.ctx.modelCache, id)
    ensures r.value == Translation(g, r.ctx.modelCache, id)
    ensures r.value.Some? <==> Translatable(g, id)
    decreases Uncached(g, ctx), 0, Rank(g, id), 1, 0
  {
    RankEdges(g, id);
    NodeIsClosed(g, id);
    EvolvesRefl(g, ctx);
    match FindProp(g[id].properties, "v")
    case None => Threaded(None, ctx)
    case Some(v) =>
      var vt := CreateRestType(g, ctx, v.typ);
      Threaded(if vt.value.Some? then Some(MapType(vt.value.value)) else None, vt.ctx)
  }

  /** The loop over a union's options from position `k` on: each option is translated in
      order and the failing ones are dropped. */
  function CreateUnionOptions(g: Graph, ctx: Context, id: SrcId, k: nat): (r: Threaded<seq<RestType>>)
    requires WellFormed(g) && id in g && CtxOk(g, ctx) && g[id].SUnion? && k <= |g[id].options|
    ensures Evolves(g, ctx, r.ctx)
    ensures forall j :: k <= j < |g[id].options| ==> g[id].options[j] in g && Settled(g, r.ctx.modelCache, g[id].options[j])
    ensures r.value == TranslationOptions(g, r.ctx.modelCache, id, k)
    decreases Uncached(g, ctx), 0, Rank(g, id), 0, |g[id].options| - k
  {
    EvolvesRefl(g, ctx);
    if k == |g[id].options| then Threaded([], ctx)
    else
      RankEdges(g, id);
      NodeIsClosed(g, id);
      var o := g[id].options[k];
      assert o in g[id].options;
      var first := CreateRestType(g, ctx, o);
      UncachedMono(g, ctx, first.ctx);
      var rest := CreateUnionOptions(g, first.ctx, id, k + 1);
      UnionStep(g, ctx, first.ctx, rest.ctx, id, k, first.value, rest.value);
      Threaded((if first.value.Some? then [first.value.value] else []) + rest.value, rest.ctx)
  }

  lemma UnionStep(g: Graph, c0: Context, c1: Context, c2: Context, id: SrcId, k: nat, first: Option<RestType>, rest: seq<RestType>)
    requires WellFormed(g) && id in g && g[id].SUnion? && k < |g[id].options| && g[id].options[k] in g
    requires Evolves(g, c0, c1) && Evolves(g, c1, c2)
    requires Settled(g, c1.modelCache, g[id].options[k]) && first == Translation(g, c1.modelCache, g[id].options[k])
    requires forall j :: k + 1 <= j < |g[id].options| ==> g[id].options[j] in g && Settled(g, c2.modelCache, g[id].options[j])
    requires rest == TranslationOptions(g, c2.modelCache, id, k + 1)
    ensures Evolves(g, c0, c2)
    ensures forall j :: k <= j < |g[id].options| ==> g[id].options[j] in g && Settled(g, c2.modelCache, g[id].options[j])
    ensures (if first.Some? then [first.value] else []) + rest == TranslationOptions(g, c2.modelCache, id, k)
  {
    var o := g[id].options[k];
    EvolvesTrans(g, c0, c1, c2);
    TranslationMono(g, c1.modelCache, c2.modelCache, o);
    SettledMono(g, c1.modelCache, c2.modelCache, o);
  }

  /** `createModelProperty(context, prop)`. */
  function CreateModelProperty(g: Graph, ctx: Context, p: SrcProp): (r: Threaded<Option<ModelProperty>>)
    requires WellFormed(g) && p.typ in g && CtxOk(g, ctx)
    ensures Evolves(g, ctx, r.ctx)
    ensures Settled(g, r.ctx.modelCache, p.typ)
    ensures r.value == PropertyOf(g, r.ctx.modelCache, p)
    ensures r.value.Some? <==> Translatable(g, p.typ)
    decreases Uncached(g, ctx), 1, 0, 0, 0
  {
    var t := CreateRestType(g, ctx, p.typ);
    Threaded(if t.value.Some? then Some(PropertyFrom(p, t.value.value)) else None, t.ctx)
  }

  /** The loop over a model's properties from position `k` on, adding each translatable
      one to `acc`. */
  function WalkProperties(g: Graph, ctx: Context, ps: seq<SrcProp>, k: nat, acc: OrderedMap<string, ModelProperty>): (r: Threaded<OrderedMap<string, ModelProperty>>)
    requires WellFormed(g) && AllIn(g, ps) && CtxOk(g, ctx) && k <= |ps|
    ensures Evolves(g, ctx, r.ctx)
    ensures PropsSettled(g, r.ctx.modelCache, ps[k..])
    ensures r.value == ExpectedPropsFrom(g, r.ctx.modelCache, acc, ps[k..])
    decreases Uncached(g, ctx), 2, 0, 0, |ps| - k
  {
    EvolvesRefl(g, ctx);
    if k == |ps| then Threaded(acc, ctx)
    else
      assert ps[k] in ps;
      var step := CreateModelProperty(g, ctx, ps[k]);
      UncachedMono(g, ctx, step.ctx);
      var rest := WalkProperties(g, step.ctx, ps, k + 1, AddProperty(acc, ps[k].name, step.value));
      WalkStep(g, ctx, step.ctx, rest.ctx, ps, k, acc, step.value, rest.value);
      Threaded(rest.value, rest.ctx)
  }

  lemma WalkStep(g: Graph, c0: Context, c1: Context, c2: Context, ps: seq<SrcProp>, k: nat,
                 acc: OrderedMap<string, ModelProperty>, stepValue: Option<ModelProperty>, restValue: OrderedMap<string, ModelProperty>)
    requires WellFormed(g) && AllIn(g, ps) && k < |ps|
    requires Evolves(g, c0, c1) && Evolves(g, c1, c2)
    requires Settled(g, c1.modelCache, ps[k].typ) && stepValue == PropertyOf(g, c1.modelCache, ps[k])
    requires PropsSettled(g, c2.modelCache, ps[k + 1..])
    requires restValue == ExpectedPropsFrom(g, c2.modelCache, AddProperty(acc, ps[k].name, stepValue), ps[k + 1..])
    ensures Evolves(g, c0, c2)
    ensures PropsSettled(g, c2.modelCache, ps[k..])
    ensures restValue == ExpectedPropsFrom(g, c2.modelCache, acc, ps[k..])
  {
    EvolvesTrans(g, c0, c1, c2);
    TranslationMono(g, c1.modelCache, c2.modelCache, ps[k].typ);
    SettledMono(g, c1.modelCache, c2.modelCache, ps[k].typ);
    assert ps[k..][0] == ps[k] && ps[k..][1..] == ps[k + 1..];
    assert forall p :: p in ps[k..] ==> p == ps[k] || p in ps[k + 1..];
  }

  /** A model seen for the first time: a new node is allocated and cached before the
      properties are walked, and receives the properties afterwards. */
  function CreateModelType(g: Graph, ctx: Context, id: SrcId): (r: Threaded<Option<RestType>>)
    requires WellFormed(g) && id in g && CtxOk(g, ctx) && IsPlainModel(g[id]) && id !in ctx.modelCache
    ensures Evolves(g, ctx, r.ctx)
    ensures id in r.ctx.modelCache && r.ctx.modelCache[id] == |ctx.models|
    ensures r.value == Some(ModelType(r.ctx.modelCache[id]))
    decreases Uncached(g, ctx), 0, Rank(g, id), 1, 0
  {
    var n := g[id];
    var mid := |ctx.models|;
    var ctx1 := ctx.(modelCache := ctx.modelCache[id := mid], models := ctx.models + [ModelDecl(n.name, n.discriminator, [])]);
    UncachedInsert(g, ctx, id, mid);
    InsertOk(g, ctx, id, ctx1);
    var ps := AllModelProperties(g, id);
    var w := WalkProperties(g, ctx1, ps, 0, []);
    assert ps[0..] == ps;
    var ctx2 := w.ctx.(models := w.ctx.models[mid := ModelDecl(n.name, n.discriminator, w.value)]);
    ModelFinish(g, ctx, ctx1, w.ctx, ctx2, id, w.value);
    Threaded(Some(ModelType(mid)), ctx2)
  }

  lemma InsertOk(g: Graph, ctx: Context, id: SrcId, ctx1: Context)
    requires WellFormed(g) && id in g && CtxOk(g, ctx) && IsPlainModel(g[id]) && id !in ctx.modelCache
    requires ctx1 == ctx.(modelCache := ctx.modelCache[id := |ctx.models|], models := ctx.models + [ModelDecl(g[id].name, g[id].discriminator, [])])
    ensures CtxOk(g, ctx1) && ModelsGrow(ctx, ctx1)
  {
    CacheInsertOk(g, ctx.modelCache, ctx.models, id, ModelDecl(g[id].name, g[id].discriminator, []));
    assert ctx1.models[..|ctx.models|] == ctx.models;
  }

  /** Mapping a new key to a fresh index keeps a map of distinct indices injective. */
  lemma InsertFresh<K>(m: map<K, nat>, k: K, n: nat)
    requires k !in m && forall j :: j in m ==> m[j] < n
    requires Injective(m)
    ensures Injective(m[k := n])
    ensures |m[k := n].Keys| == |m.Keys| + 1
  {
    var m2 := m[k := n];
    assert m2.Keys == m.Keys + {k};
    forall k1, k2 | k1 in m2 && k2 in m2 && k1 != k2
      ensures m2[k1] != m2[k2]
    {
      if k1 != k && k2 != k {
        assert m2[k1] == m[k1] && m2[k2] == m[k2];
      }
    }
  }

  lemma CacheInsertOk(g: Graph, cache: map<SrcId, ModelId>, models: seq<ModelDecl>, id: SrcId, d: ModelDecl)
    requires ModelCacheOk(g, cache, models) && id in g && IsPlainModel(g[id]) && id !in cache
    ensures ModelCacheOk(g, cache[id := |models|], models + [d])
  {
    InsertFresh(cache, id, |models|);
  }

  /** What `CreateModelType` knows once the properties of the new node are walked:
      `ctx1` is `ctx` with the empty node allocated, `ctxw` the context after the walk and
      `ctx2` the context with the node filled in. */
  ghost predicate Walked(g: Graph, ctx: Context, ctx1: Context, ctxw: Context, ctx2: Context, id: SrcId, props: OrderedMap<string, ModelProperty>) {
    WellFormed(g) && id in g && IsPlainModel(g[id]) && id !in ctx.modelCache &&
    ctx1 == ctx.(modelCache := ctx.modelCache[id := |ctx.models|], models := ctx.models + [ModelDecl(g[id].name, g[id].discriminator, [])]) &&
    ModelsGrow(ctx, ctx1) && Evolves(g, ctx1, ctxw) &&
    PropsSettled(g, ctxw.modelCache, AllModelProperties(g, id)) &&
    props == ExpectedProps(g, ctxw.modelCache, AllModelProperties(g, id)) &&
    ctx2 == ctxw.(models := ctxw.models[|ctx.models| := ModelDecl(g[id].name, g[id].discriminator, props)])
  }

  /** The last step of `CreateModelType`: the context after filling in the new node has
      evolved from the one before the node was allocated. */
  lemma ModelFinish(g: Graph, ctx: Context, ctx1: Context, ctxw: Context, ctx2: Context, id: SrcId, props: OrderedMap<string, ModelProperty>)
    requires Walked(g, ctx, ctx1, ctxw, ctx2, id, props)
    ensures Evolves(g, ctx, ctx2)
    ensures id in ctx2.modelCache && ctx2.modelCache[id] == |ctx.models|
  {
    WalkedComplete(g, ctx, ctx1, ctxw, ctx2, id, props);
    assert ModelsGrow(ctx1, ctxw);
    WalkedGrows(ctx, ctx1, ctxw, ctx2, ModelDecl(g[id].name, g[id].discriminator, props));
    WalkedOk(g, ctx, ctx1, ctxw, ctx2, id, props);
  }

  lemma WalkedComplete(g: Graph, ctx: Context, ctx1: Context, ctxw: Context, ctx2: Context, id: SrcId, props: OrderedMap<string, ModelProperty>)
    requires Walked(g, ctx, ctx1, ctxw, ctx2, id, props)
    ensures NewComplete(g, ctx, ctx2)
  {
    assert ctxw.modelCache[id] == |ctx.models|;
    ModelDone(g, ctx, ctx1, ctxw, ctx2, id, props);
  }

  lemma WalkedGrows(ctx: Context, ctx1: Context, ctxw: Context, ctx2: Context, d: ModelDecl)
    requires ModelsGrow(ctx, ctx1) && |ctx1.models| == |ctx.models| + 1 && ModelsGrow(ctx1, ctxw)
    requires ctx2 == ctxw.(models := ctxw.models[|ctx.models| := d])
    ensures ModelsGrow(ctx, ctx2)
  {
    ModelDoneGrows(ctx, ctx1, ctxw, ctx2);
  }

  lemma WalkedOk(g: Graph, ctx: Context, ctx1: Context, ctxw: Context, ctx2: Context, id: SrcId, props: OrderedMap<string, ModelProperty>)
    requires Walked(g, ctx, ctx1, ctxw, ctx2, id, props)
    ensures CtxOk(g, ctx2) && ctx2.responseCache == ctx.responseCache && ctx2.responses == ctx.responses
    ensures id in ctx2.modelCache && ctx2.modelCache[id] == |ctx.models|
  {
    assert ctx2.modelCache == ctxw.modelCache && |ctx2.models| == |ctxw.models|;
  }

  /** Filling in the new node finishes it, and every other node created meanwhile is
      finished already. */
  lemma ModelDone(g: Graph, ctx: Context, ctx1: Context, ctxw: Context, ctx2: Context, id: SrcId, props: OrderedMap<string, ModelProperty>)
    requires WellFormed(g) && id in g && IsPlainModel(g[id])
    requires ctx1.modelCache == ctx.modelCache[id := |ctx.models|]
    requires ModelCacheOk(g, ctxw.modelCache, ctxw.models) && NewComplete(g, ctx1, ctxw)
    requires id in ctxw.modelCache && ctxw.modelCache[id] == |ctx.models| < |ctxw.models|
    requires PropsSettled(g, ctxw.modelCache, AllModelProperties(g, id))
    requires props == ExpectedProps(g, ctxw.modelCache, AllModelProperties(g, id))
    requires ctx2 == ctxw.(models := ctxw.models[|ctx.models| := ModelDecl(g[id].name, g[id].discriminator, props)])
    ensures NewComplete(g, ctx, ctx2)
  {
    ModelSelfComplete(g, ctxw, ctx2, id, props);
    OthersComplete(g, ctx, ctx1, ctxw, ctx2, id, ModelDecl(g[id].name, g[id].discriminator, props));
  }

  lemma ModelSelfComplete(g: Graph, ctxw: Context, ctx2: Context, id: SrcId, props: OrderedMap<string, ModelProperty>)
    requires WellFormed(g) && id in g && IsPlainModel(g[id]) && id in ctxw.modelCache
    requires ctxw.modelCache[id] < |ctxw.models|
    requires PropsSettled(g, ctxw.modelCache, AllModelProperties(g, id))
    requires props == ExpectedProps(g, ctxw.modelCache, AllModelProperties(g, id))
    requires ctx2 == ctxw.(models := ctxw.models[ctxw.modelCache[id] := ModelDecl(g[id].name, g[id].discriminator, props)])
    ensures Complete(g, ctx2, id)
  {
  }

  lemma OthersComplete(g: Graph, ctx: Context, ctx1: Context, ctxw: Context, ctx2: Context, id: SrcId, d: ModelDecl)
    requires ModelCacheOk(g, ctxw.modelCache, ctxw.models) && NewComplete(g, ctx1, ctxw)
    requires ctx1.modelCache == ctx.modelCache[id := |ctx.models|]
    requires id in ctxw.modelCache && ctxw.modelCache[id] == |ctx.models| < |ctxw.models|
    requires ctx2 == ctxw.(models := ctxw.models[|ctx.models| := d])
    requires Complete(g, ctx2, id)
    ensures NewComplete(g, ctx, ctx2)
  {
    forall k | k in ctx2.modelCache && k !in ctx.modelCache
      ensures Complete(g, ctx2, k)
    {
      if k != id {
        assert k !in ctx1.modelCache;
        CompleteFrame(g, ctxw, k, |ctx.models|, d);
      }
    }
  }

  lemma ModelDoneGrows(ctx: Context, ctx1: Context, ctxw: Context, ctx2: Context)
    requires ModelsGrow(ctx, ctx1) && ModelsGrow(ctx1, ctxw) && |ctx1.models| == |ctx.models| + 1
    requires ctx2.modelCache == ctxw.modelCache && |ctx2.models| == |ctxw.models|
    requires forall i :: 0 <= i < |ctx.models| ==> ctx2.models[i] == ctxw.models[i]
    ensures ModelsGrow(ctx, ctx2)
  {
    ModelsGrowTrans(ctx, ctx1, ctxw);
    assert ctx2.models[..|ctx.models|] == ctxw.models[..|ctx.models|];
  }

  /** Replacing a node other than `k`'s leaves `k` complete. */
  lemma CompleteFrame(g: Graph, c: Context, k: SrcId, m: nat, d: ModelDecl)
    requires Complete(g, c, k) && m < |c.models| && c.modelCache[k] != m
    ensures Complete(g, c.(models := c.models[m := d]), k)
  {
    var c2 := c.(models := c.models[m := d]);
    assert c2.models[c.modelCache[k]] == c.models[c.modelCache[k]];
  }
}
