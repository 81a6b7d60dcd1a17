/** TypeScript type text for REST types (packages/emitter/src/generators/interfaces.ts).
    Rendering threads the client context: a model is rendered through the interface
    cache, whose entry is stored, with empty text, before the model's properties are
    rendered, so a model reached again while it is being rendered shows its name (or,
    for an inline model, the empty text stored so far) and the recursion ends.

    Every result is described by `CachedRender`, a pure rendering that reads model
    entries off the cache the call leaves behind. */
module Interfaces {
  import opened Wrappers
  import opened Strings
  import opened Ordered
  import opened Ir
  import opened Identifiers
  import opened Cache

  /** Every property type of every model points into the arena. */
  predicate ArenaOk(models: seq<ModelDecl>) {
    forall m, j :: 0 <= m < |models| && 0 <= j < |models[m].properties| ==>
      RefsBelow(models[m].properties[j].1.typ, |models|)
  }

  predicate PropsBelow(props: seq<ModelProperty>, n: nat) {
    forall i :: 0 <= i < |props| ==> RefsBelow(props[i].typ, n)
  }

  lemma ArenaProps(models: seq<ModelDecl>, id: ModelId)
    requires ArenaOk(models) && id < |models|
    ensures PropsBelow(Values(models[id].properties), |models|)
  {
  }

  // ---------------------------------------------------------------------------
  // The pure rendering

  /** Every model inside `t` has an entry. */
  predicate AllCached(entries: map<nat, CachedInterface>, t: RestType) {
    match t
    case ArrayType(e) => AllCached(entries, e)
    case ModelType(id) => id in entries
    case UnionType(options) => forall o :: o in options ==> AllCached(entries, o)
    case MapType(v) => AllCached(entries, v)
    case _ => true
  }

  predicate PropsCached(entries: map<nat, CachedInterface>, props: seq<ModelProperty>) {
    forall i :: 0 <= i < |props| ==> AllCached(entries, props[i].typ)
  }

  /** What a cache hit shows: the text of an inline model, the name of a named one. */
  function Shown(e: CachedInterface): string {
    if e.inline then e.generatedText else e.name
  }

  /** The three scalar kinds: the constant when there is one (a string constant in
      double quotes, without escaping), the kind name otherwise. */
  function ScalarText(t: RestType): (r: string)
    requires t.StringType? || t.NumberType? || t.BooleanType?
    ensures t.StringType? && t.sconstant.Some? ==> r == "\"" + t.sconstant.value + "\""
    ensures t.NumberType? && t.nconstant.Some? ==> r == IntToString(t.nconstant.value)
    ensures t.BooleanType? && t.bconstant.Some? ==> r == if t.bconstant.value then "true" else "false"
    ensures t == StringType(None) <==> r == "string"
    ensures t == NumberType(None) <==> r == "number"
    ensures t == BooleanType(None) <==> r == "boolean"
  {
    match t
    case StringType(c) =>
      if c.None? then "string"
      else
        var q := "\"" + c.value + "\"";
        assert q[0] == '"';
        q
    case NumberType(c) => if c.None? then "number" else IntToString(c.value)
    case BooleanType(c) => if c.None? then "boolean" else if c.value then "true" else "false"
  }

  /** An array of arrays or models is written `Array<T>`, any other array `T[]`. */
  function ArrayText(elementType: RestType, element: string): string {
    if elementType.ArrayType? || elementType.ModelType? then "Array<" + element + ">"
    else element + "[]"
  }

  function MapText(value: string): string {
    "Map<string, " + value + ">"
  }

  function UnionText(options: seq<string>): string {
    Join(options, " | ")
  }

  /** The text of `t` when every model in it is rendered by its cache entry. */
  function CachedRender(entries: map<nat, CachedInterface>, t: RestType): string
    requires AllCached(entries, t)
    decreases Size(t), 0
  {
    match t
    case ArrayType(e) => ArrayText(e, CachedRender(entries, e))
    case ModelType(id) => Shown(entries[id])
    case UnionType(options) => UnionText(CachedRenderAll(entries, options))
    case MapType(v) => MapText(CachedRender(entries, v))
    case _ => ScalarText(t)
  }

  function CachedRenderAll(entries: map<nat, CachedInterface>, ts: seq<RestType>): (r: seq<string>)
    requires forall o :: o in ts ==> AllCached(entries, o)
    ensures |r| == |ts|
    decreases SizeAll(ts), 1
  {
    if ts == [] then []
    else [CachedRender(entries, ts[0])] + CachedRenderAll(entries, ts[1..])
  }

  /** A property: its name, quoted if needed, `?:` when optional and `:` otherwise, then
      its type. */
  function PropertyText(p: ModelProperty, value: string): string {
    QuoteNameIfNeeded(p.name) + " " + (if p.optional then "?:" else ":") + " " + value
  }

  function PropsRender(entries: map<nat, CachedInterface>, props: seq<ModelProperty>): (r: seq<string>)
    requires PropsCached(entries, props)
    ensures |r| == |props|
    ensures forall i :: 0 <= i < |props| ==> r[i] == PropertyText(props[i], CachedRender(entries, props[i].typ))
  {
    seq(|props|, i requires 0 <= i < |props| && PropsCached(entries, props) =>
      PropertyText(props[i], CachedRender(entries, props[i].typ)))
  }

  /** The stored text of a model: `{ props }` when inline, `export interface Name { props }`
      otherwise, the properties separated by commas. */
  function InterfaceText(name: string, inline: bool, props: seq<string>): (r: string)
    ensures r != []
  {
    if inline then "{ " + Join(props, ",") + " }"
    else "export interface " + name + " { " + Join(props, ",") + " }"
  }

  /** The entry of a model whose rendering has begun but not ended. */
  function InProgress(d: ModelDecl): CachedInterface {
    CachedInterface(d.name, "", d.name == [])
  }

  /** Entries only ever show what they showed before. */
  predicate EntriesGrow(e1: map<nat, CachedInterface>, e2: map<nat, CachedInterface>) {
    forall k :: k in e1 ==> k in e2 && e2[k] == e1[k]
  }

  lemma {:induction false} AllCachedMono(e1: map<nat, CachedInterface>, e2: map<nat, CachedInterface>, t: RestType)
    requires EntriesGrow(e1, e2) && AllCached(e1, t)
    ensures AllCached(e2, t)
    decreases Size(t)
  {
    match t
    case ArrayType(e) => AllCachedMono(e1, e2, e);
    case MapType(v) => AllCachedMono(e1, e2, v);
    case UnionType(options) =>
      forall o | o in options
        ensures AllCached(e2, o)
      {
        AllCachedMono(e1, e2, o);
      }
    case _ =>
  }

  /** Adding or finishing other entries does not change the text of a type whose models
      are all cached. */
  lemma {:induction false} CachedRenderMono(e1: map<nat, CachedInterface>, e2: map<nat, CachedInterface>, t: RestType)
    requires EntriesGrow(e1, e2) && AllCached(e1, t)
    ensures AllCached(e2, t) && CachedRender(e2, t) == CachedRender(e1, t)
    decreases Size(t), 0
  {
    AllCachedMono(e1, e2, t);
    match t
    case ArrayType(e) => CachedRenderMono(e1, e2, e);
    case MapType(v) => CachedRenderMono(e1, e2, v);
    case UnionType(options) => CachedRenderAllMono(e1, e2, options);
    case _ =>
  }

  lemma {:induction false} CachedRenderAllMono(e1: map<nat, CachedInterface>, e2: map<nat, CachedInterface>, ts: seq<RestType>)
    requires EntriesGrow(e1, e2) && forall o :: o in ts ==> AllCached(e1, o)
    ensures (forall o :: o in ts ==> AllCached(e2, o)) && CachedRenderAll(e2, ts) == CachedRenderAll(e1, ts)
    decreases SizeAll(ts), 1
  {
    if ts != [] {
      CachedRenderMono(e1, e2, ts[0]);
      CachedRenderAllMono(e1, e2, ts[1..]);
      assert forall o :: o in ts ==> o == ts[0] || o in ts[1..];
    }
  }

  lemma {:induction false} PropsRenderMono(e1: map<nat, CachedInterface>, e2: map<nat, CachedInterface>, props: seq<ModelProperty>)
    requires EntriesGrow(e1, e2) && PropsCached(e1, props)
    ensures PropsCached(e2, props) && PropsRender(e2, props) == PropsRender(e1, props)
  {
    forall i | 0 <= i < |props|
      ensures AllCached(e2, props[i].typ) && CachedRender(e2, props[i].typ) == CachedRender(e1, props[i].typ)
    {
      CachedRenderMono(e1, e2, props[i].typ);
    }
  }

  // ---------------------------------------------------------------------------
  // The threaded rendering

  /** How many models of the arena have no entry yet: each new entry lowers it. */
  ghost function Pending(models: seq<ModelDecl>, ctx: ClientContext): nat {
    |set k: nat | k < |models| && k !in ctx.interfaceCache.entries|
  }

  lemma PendingMono(models: seq<ModelDecl>, c1: ClientContext, c2: ClientContext)
    requires EntriesGrow(c1.interfaceCache.entries, c2.interfaceCache.entries)
    ensures Pending(models, c2) <= Pending(models, c1)
  {
    var a := set k: nat | k < |models| && k !in c2.interfaceCache.entries;
    var b := set k: nat | k < |models| && k !in c1.interfaceCache.entries;
    assert a <= b;
    assert b == a + (b - a);
  }

  lemma PendingInsert(models: seq<ModelDecl>, ctx: ClientContext, id: ModelId, c1: ClientContext)
    requires id < |models| && id !in ctx.interfaceCache.entries
    requires c1.interfaceCache.entries == ctx.interfaceCache.entries[id := InProgress(models[id])]
    ensures Pending(models, c1) < Pending(models, ctx)
  {
    var a := set k: nat | k < |models| && k !in c1.interfaceCache.entries;
    var b := set k: nat | k < |models| && k !in ctx.interfaceCache.entries;
    assert id in b && a == b - {id};
  }

  /** What rendering may do to the context: keep the invariant, add entries after the
      old ones without changing those, finish every entry it adds, and leave the
      response cache and the import sets alone. */
  predicate Extends(models: seq<ModelDecl>, c1: ClientContext, c2: ClientContext) {
    ContextOk(models, c2) &&
    CachedGrows(c1.interfaceCache, c2.interfaceCache) &&
    (forall k :: k in c2.interfaceCache.entries && k !in c1.interfaceCache.entries ==>
       c2.interfaceCache.entries[k].generatedText != []) &&
    c2.responseCache == c1.responseCache &&
    c2.extraCorePipelineImports == c1.extraCorePipelineImports &&
    c2.extraClientLibImports == c1.extraClientLibImports
  }

  lemma ExtendsAdvances(models: seq<ModelDecl>, c1: ClientContext, c2: ClientContext)
    requires Extends(models, c1, c2)
    ensures Advances(models, c1, c2)
  {
  }

  lemma ExtendsTrans(models: seq<ModelDecl>, a: ClientContext, b: ClientContext, c: ClientContext)
    requires Extends(models, a, b) && Extends(models, b, c)
    ensures Extends(models, a, c)
  {
    CachedGrowsTrans(a.interfaceCache, b.interfaceCache, c.interfaceCache);
  }

  /** `restTypeToTypeScript`. */
  function RestTypeToTypeScript(models: seq<ModelDecl>, ctx: ClientContext, t: RestType): (r: Emitted<string>)
    requires ArenaOk(models) && ContextOk(models, ctx) && RefsBelow(t, |models|)
    ensures Extends(models, ctx, r.ctx)
    ensures AllCached(r.ctx.interfaceCache.entries, t)
    ensures r.value == CachedRender(r.ctx.interfaceCache.entries, t)
    decreases Pending(models, ctx), 1, Size(t), 0
  {
    match t
    case ArrayType(e) =>
      var x := RestTypeToTypeScript(models, ctx, e);
      Emitted(ArrayText(e, x.value), x.ctx)
    case ModelType(id) =>
      ModelTypeToTypeScript(models, ctx, id)
    case UnionType(options) =>
      var x := OptionsToTypeScript(models, ctx, options);
      Emitted(UnionText(x.value), x.ctx)
    case MapType(v) =>
      var x := RestTypeToTypeScript(models, ctx, v);
      Emitted(MapText(x.value), x.ctx)
    case _ =>
      Emitted(ScalarText(t), ctx)
  }

  lemma PropsStep(e1: map<nat, CachedInterface>, e2: map<nat, CachedInterface>, props: seq<ModelProperty>, v: string, rest: seq<string>)
    requires props != [] && EntriesGrow(e1, e2) && AllCached(e1, props[0].typ)
    requires v == CachedRender(e1, props[0].typ)
    requires PropsCached(e2, props[1..]) && rest == PropsRender(e2, props[1..])
    ensures PropsCached(e2, props) && [PropertyText(props[0], v)] + rest == PropsRender(e2, props)
  {
    CachedRenderMono(e1, e2, props[0].typ);
    forall i | 1 <= i < |props|
      ensures AllCached(e2, props[i].typ)
    {
      assert props[i] == props[1..][i - 1];
    }
    var r := PropsRender(e2, props);
    var s := [PropertyText(props[0], v)] + rest;
    forall i | 0 <= i < |props|
      ensures r[i] == s[i]
    {
      if i > 0 {
        assert props[i] == props[1..][i - 1];
        assert s[i] == rest[i - 1];
      }
    }
  }

  /** The options of a union, in order. */
  function OptionsToTypeScript(models: seq<ModelDecl>, ctx: ClientContext, ts: seq<RestType>): (r: Emitted<seq<string>>)
    requires ArenaOk(models) && ContextOk(models, ctx) && forall o :: o in ts ==> RefsBelow(o, |models|)
    ensures Extends(models, ctx, r.ctx)
    ensures forall o :: o in ts ==> AllCached(r.ctx.interfaceCache.entries, o)
    ensures r.value == CachedRenderAll(r.ctx.interfaceCache.entries, ts)
    decreases Pending(models, ctx), 1, SizeAll(ts), 1
  {
    if ts == [] then Emitted([], ctx)
    else
      var x := RestTypeToTypeScript(models, ctx, ts[0]);
      PendingMono(models, ctx, x.ctx);
      var rest := OptionsToTypeScript(models, x.ctx, ts[1..]);
      ExtendsTrans(models, ctx, x.ctx, rest.ctx);
      CachedRenderMono(x.ctx.interfaceCache.entries, rest.ctx.interfaceCache.entries, ts[0]);
      assert forall o :: o in ts ==> o == ts[0] || o in ts[1..];
      Emitted([x.value] + rest.value, rest.ctx)
  }

  /** `modelPropertyToTypeScript` over a model's properties, in order. */
  function PropertiesToTypeScript(models: seq<ModelDecl>, ctx: ClientContext, props: seq<ModelProperty>): (r: Emitted<seq<string>>)
    requires ArenaOk(models) && ContextOk(models, ctx) && PropsBelow(props, |models|)
    ensures Extends(models, ctx, r.ctx)
    ensures PropsCached(r.ctx.interfaceCache.entries, props)
    ensures r.value == PropsRender(r.ctx.interfaceCache.entries, props)
    decreases Pending(models, ctx), 2, |props|, 0
  {
    if props == [] then Emitted([], ctx)
    else
      var x := RestTypeToTypeScript(models, ctx, props[0].typ);
      PendingMono(models, ctx, x.ctx);
      var rest := PropertiesToTypeScript(models, x.ctx, props[1..]);
      ExtendsTrans(models, ctx, x.ctx, rest.ctx);
      PropsStep(x.ctx.interfaceCache.entries, rest.ctx.interfaceCache.entries, props, x.value, rest.value);
      Emitted([PropertyText(props[0], x.value)] + rest.value, rest.ctx)
  }

  /** `modelTypeToTypeScript`. A hit shows the entry without rendering anything. A miss
      stores the in-progress entry, renders the properties, and then stores the
      finished text: the properties rendered with this model's own entry still in
      progress. */
  function ModelTypeToTypeScript(models: seq<ModelDecl>, ctx: ClientContext, id: ModelId): (r: Emitted<string>)
    requires ArenaOk(models) && ContextOk(models, ctx) && id < |models|
    ensures Extends(models, ctx, r.ctx)
    ensures id in r.ctx.interfaceCache.entries && r.value == Shown(r.ctx.interfaceCache.entries[id])
    ensures id in ctx.interfaceCache.entries ==> r == Emitted(Shown(ctx.interfaceCache.entries[id]), ctx)
    ensures id !in ctx.interfaceCache.entries ==>
      var d := models[id];
      var during := r.ctx.interfaceCache.entries[id := InProgress(d)];
      PropsCached(during, Values(d.properties)) &&
      r.ctx.interfaceCache.entries[id] ==
        CachedInterface(d.name, InterfaceText(d.name, d.name == [], PropsRender(during, Values(d.properties))), d.name == [])
    decreases Pending(models, ctx), 0, 0, 0
  {
    if id in ctx.interfaceCache.entries then
      Emitted(Shown(ctx.interfaceCache.entries[id]), ctx)
    else
      var d := models[id];
      var inline := d.name == [];
      var c1 := ctx.(interfaceCache := Put(ctx.interfaceCache, id, InProgress(d)));
      PendingInsert(models, ctx, id, c1);
      ArenaProps(models, id);
      var props := PropertiesToTypeScript(models, c1, Values(d.properties));
      var text := InterfaceText(d.name, inline, props.value);
      var c2 := props.ctx.(interfaceCache := Put(props.ctx.interfaceCache, id, CachedInterface(d.name, text, inline)));
      ModelMissDone(models, ctx, c1, props.ctx, c2, id, text);
      Emitted(if inline then text else d.name, c2)
  }

  lemma ModelMissDone(models: seq<ModelDecl>, ctx: ClientContext, c1: ClientContext, cw: ClientContext, c2: ClientContext, id: ModelId, text: string)
    requires ContextOk(models, ctx) && id < |models| && id !in ctx.interfaceCache.entries
    requires c1 == ctx.(interfaceCache := Put(ctx.interfaceCache, id, InProgress(models[id])))
    requires Extends(models, c1, cw) && text != []
    requires c2 == cw.(interfaceCache := Put(cw.interfaceCache, id, CachedInterface(models[id].name, text, models[id].name == [])))
    ensures Extends(models, ctx, c2)
    ensures cw.interfaceCache.entries == c2.interfaceCache.entries[id := InProgress(models[id])]
  {
    var e := CachedInterface(models[id].name, text, models[id].name == []);
    assert cw.interfaceCache.entries[id] == InProgress(models[id]);
    MissGrows(ctx.interfaceCache, c1.interfaceCache, cw.interfaceCache, c2.interfaceCache, id, InProgress(models[id]), e);
    PutDescribedOk(models, cw, id, e);
  }

  /** The interface cache across a miss: the in-progress entry is added, other calls
      extend the cache, and the entry is then replaced by its finished text. */
  lemma MissGrows(c: Cached, c1: Cached, cw: Cached, c2: Cached, id: nat, e0: CachedInterface, e: CachedInterface)
    requires CachedOk(c) && id !in c.entries
    requires c1 == Put(c, id, e0) && CachedGrows(c1, cw) && CachedOk(cw)
    requires (forall k :: k in cw.entries && k !in c1.entries ==> cw.entries[k].generatedText != [])
    requires c2 == Put(cw, id, e) && e.generatedText != []
    ensures CachedGrows(c, c2)
    ensures forall k :: k in c2.entries && k !in c.entries ==> c2.entries[k].generatedText != []
    ensures cw.entries == c2.entries[id := e0]
  {
    MissOrder(c, c1, cw, c2, id, e0, e);
    assert cw.entries[id] == e0 by {
      assert id in c1.entries && c1.entries[id] == e0;
    }
    MapUpdateBack(cw.entries, id, e);
  }

  /** Overwriting a key and then restoring its value gives the map back. */
  lemma MapUpdateBack(m: map<nat, CachedInterface>, k: nat, e: CachedInterface)
    requires k in m
    ensures m[k := e][k := m[k]] == m
  {
  }

  lemma MissOrder(c: Cached, c1: Cached, cw: Cached, c2: Cached, id: nat, e0: CachedInterface, e: CachedInterface)
    requires CachedOk(c) && id !in c.entries
    requires c1 == Put(c, id, e0) && CachedGrows(c1, cw) && CachedOk(cw)
    requires c2 == Put(cw, id, e)
    ensures |c.order| <= |c2.order| && c2.order[..|c.order|] == c.order
  {
    assert c2.order == cw.order;
    assert c1.order == c.order + [id];
    assert cw.order[..|c.order|] == cw.order[..|c1.order|][..|c.order|];
  }

  /** `modelPropertyToTypeScript` for one property. */
  function ModelPropertyToTypeScript(models: seq<ModelDecl>, ctx: ClientContext, p: ModelProperty): (r: Emitted<string>)
    requires ArenaOk(models) && ContextOk(models, ctx) && RefsBelow(p.typ, |models|)
    ensures Extends(models, ctx, r.ctx)
    ensures AllCached(r.ctx.interfaceCache.entries, p.typ)
    ensures r.value == PropertyText(p, CachedRender(r.ctx.interfaceCache.entries, p.typ))
  {
    var x := RestTypeToTypeScript(models, ctx, p.typ);
    Emitted(PropertyText(p, x.value), x.ctx)
  }

  // ---------------------------------------------------------------------------
  // Stability

  /** Once every model of `t` has an entry, rendering `t` changes nothing and yields
      the pure rendering: no model is rendered twice. */
  lemma {:induction false} RenderCached(models: seq<ModelDecl>, ctx: ClientContext, t: RestType)
    requires ArenaOk(models) && ContextOk(models, ctx) && RefsBelow(t, |models|)
    requires AllCached(ctx.interfaceCache.entries, t)
    ensures RestTypeToTypeScript(models, ctx, t) == Emitted(CachedRender(ctx.interfaceCache.entries, t), ctx)
    decreases Size(t), 0
  {
    match t
    case ArrayType(e) => RenderCached(models, ctx, e);
    case MapType(v) => RenderCached(models, ctx, v);
    case UnionType(options) => RenderCachedAll(models, ctx, options);
    case _ =>
  }

  lemma {:induction false} RenderCachedAll(models: seq<ModelDecl>, ctx: ClientContext, ts: seq<RestType>)
    requires ArenaOk(models) && ContextOk(models, ctx) && forall o :: o in ts ==> RefsBelow(o, |models|)
    requires forall o :: o in ts ==> AllCached(ctx.interfaceCache.entries, o)
    ensures OptionsToTypeScript(models, ctx, ts) == Emitted(CachedRenderAll(ctx.interfaceCache.entries, ts), ctx)
    decreases SizeAll(ts), 1
  {
    if ts != [] {
      RenderCached(models, ctx, ts[0]);
      RenderCachedAll(models, ctx, ts[1..]);
    }
  }

  /** Rendering the same type a second time gives the same text and leaves the context
      as the first rendering left it. */
  lemma RenderTwice(models: seq<ModelDecl>, ctx: ClientContext, t: RestType)
    requires ArenaOk(models) && ContextOk(models, ctx) && RefsBelow(t, |models|)
    ensures var first := RestTypeToTypeScript(models, ctx, t);
      RestTypeToTypeScript(models, first.ctx, t) == first
  {
    var first := RestTypeToTypeScript(models, ctx, t);
    RenderCached(models, first.ctx, t);
  }

  // ---------------------------------------------------------------------------
  // The declarations of a client

  /** The texts of the entries that are not inline, in order. */
  function DeclaredTexts(es: seq<CachedInterface>): (r: seq<string>)
    ensures |r| <= |es|
    ensures forall i :: 0 <= i < |es| && !es[i].inline ==> es[i].generatedText in r
    ensures forall x :: x in r ==> exists i :: 0 <= i < |es| && !es[i].inline && es[i].generatedText == x
  {
    if es == [] then []
    else
      var rest := DeclaredTexts(es[1..]);
      assert forall i :: 1 <= i < |es| ==> es[i] == es[1..][i - 1];
      if es[0].inline then rest else [es[0].generatedText] + rest
  }

  /** The order of declarations follows the order of entries. */
  lemma {:induction false} DeclaredTextsAppend(a: seq<CachedInterface>, b: seq<CachedInterface>)
    ensures DeclaredTexts(a + b) == DeclaredTexts(a) + DeclaredTexts(b)
  {
    if a != [] {
      assert (a + b)[1..] == a[1..] + b;
      DeclaredTextsAppend(a[1..], b);
    } else {
      assert a + b == b;
    }
  }

  function Texts(es: seq<CachedInterface>): (r: seq<string>)
    ensures |r| == |es| && forall i :: 0 <= i < |es| ==> r[i] == es[i].generatedText
  {
    seq(|es|, i requires 0 <= i < |es| => es[i].generatedText)
  }

  /** `createInterfaces`: the named interfaces, then the responses, each in the order
      their entries were made, separated by blank lines. */
  function CreateInterfaces(ctx: ClientContext): (r: string)
    requires CachedOk(ctx.interfaceCache) && CachedOk(ctx.responseCache)
    ensures r == Join(DeclaredTexts(CachedValues(ctx.interfaceCache)), "\n\n") + "\n\n" +
      Join(Texts(CachedValues(ctx.responseCache)), "\n\n")
  {
    var interfaces := Join(DeclaredTexts(CachedValues(ctx.interfaceCache)), "\n\n");
    var responses := Join(Texts(CachedValues(ctx.responseCache)), "\n\n");
    interfaces + "\n\n" + responses
  }

  // ---------------------------------------------------------------------------
  // Recursive models

  /** A property whose type is the model being rendered shows what that model's entry
      shows while it is in progress: the model's name, which is empty for an inline
      model because its text is stored only after all its properties are rendered. */
  lemma SelfReference(models: seq<ModelDecl>, ctx: ClientContext, id: ModelId, k: nat)
    requires ArenaOk(models) && ContextOk(models, ctx) && id < |models| && id !in ctx.interfaceCache.entries
    requires k < |models[id].properties| && models[id].properties[k].1.typ == ModelType(id)
    ensures var r := ModelTypeToTypeScript(models, ctx, id);
      var d := models[id];
      var during := r.ctx.interfaceCache.entries[id := InProgress(d)];
      PropsCached(during, Values(d.properties)) &&
      PropsRender(during, Values(d.properties))[k] == PropertyText(d.properties[k].1, d.name)
  {
    var r := ModelTypeToTypeScript(models, ctx, id);
    var during := r.ctx.interfaceCache.entries[id := InProgress(models[id])];
    assert CachedRender(during, ModelType(id)) == models[id].name;
  }

  /** A named model whose property refers to the model itself: the reference inside
      is written with the name, and the model is rendered once. */
  lemma RecursiveNamedModel(models: seq<ModelDecl>)
    requires models == [ModelDecl("Node", None, [("next", ModelProperty("next", None, true, None, ModelType(0)))])]
    ensures var r := RestTypeToTypeScript(models, FreshClientContext(), ModelType(0));
      r.value == "Node" &&
      r.ctx.interfaceCache.entries[0] == CachedInterface("Node", "export interface Node { next ?: Node }", false)
  {
    FreshContextOk(models);
    var r := ModelTypeToTypeScript(models, FreshClientContext(), 0);
    NodeProperties(models, r.ctx.interfaceCache.entries[0 := InProgress(models[0])]);
    NodeText();
  }

  lemma NodeText()
    ensures InterfaceText("Node", false, ["next ?: Node"]) == "export interface Node { next ?: Node }"
  {
    assert Join(["next ?: Node"], ",") == "next ?: Node";
  }

  lemma NodeProperties(models: seq<ModelDecl>, during: map<nat, CachedInterface>)
    requires models == [ModelDecl("Node", None, [("next", ModelProperty("next", None, true, None, ModelType(0)))])]
    requires 0 in during && during[0] == InProgress(models[0])
    ensures PropsCached(during, Values(models[0].properties))
    ensures PropsRender(during, Values(models[0].properties)) == ["next ?: Node"]
  {
    var p := ModelProperty("next", None, true, None, ModelType(0));
    assert Values(models[0].properties) == [p];
    assert IsBare("next");
    assert CachedRender(during, ModelType(0)) == "Node";
    assert PropertyText(p, "Node") == "next ?: Node";
  }

  /** An inline model whose property refers to the model itself: the reference inside
      shows the text stored so far, which is empty. */
  lemma RecursiveInlineModel(models: seq<ModelDecl>)
    requires models == [ModelDecl("", None, [("self", ModelProperty("self", None, false, None, ModelType(0)))])]
    ensures RestTypeToTypeScript(models, FreshClientContext(), ModelType(0)).value == "{ self :  }"
  {
    FreshContextOk(models);
    var r := ModelTypeToTypeScript(models, FreshClientContext(), 0);
    SelfProperties(models, r.ctx.interfaceCache.entries[0 := InProgress(models[0])]);
    SelfText();
  }

  lemma SelfText()
    ensures InterfaceText("", true, ["self : "]) == "{ self :  }"
  {
    assert Join(["self : "], ",") == "self : ";
  }

  lemma SelfProperties(models: seq<ModelDecl>, during: map<nat, CachedInterface>)
    requires models == [ModelDecl("", None, [("self", ModelProperty("self", None, false, None, ModelType(0)))])]
    requires 0 in during && during[0] == InProgress(models[0])
    ensures PropsCached(during, Values(models[0].properties))
    ensures PropsRender(during, Values(models[0].properties)) == ["self : "]
  {
    var p := ModelProperty("self", None, false, None, ModelType(0));
    assert Values(models[0].properties) == [p];
    assert IsBare("self");
    assert CachedRender(during, ModelType(0)) == "";
    assert PropertyText(p, "") == "self : ";
  }
}
