/** `getResponses` and `createResponseFromModel` of
    packages/emitter/src/modeler/responses.ts.

    A return type is flattened into its model leaves: a union contributes the responses
    of its options in order, at any depth, a model exactly one response, anything else
    nothing. The response of a model is cached by the model's identity before its
    properties are walked; status-code properties contribute their codes, every other
    property goes through `CreateModelProperty`.

    The invariant `Done` says that every node in either cache holds exactly its
    reference contents under the current model cache. */
module Responses {
  import opened Wrappers
  import opened Ordered
  import opened Ir
  import opened Source
  import opened Common

  // ---------------------------------------------------------------------------
  // Reference contents of a response

  /** The properties that are not status codes, in order. */
  function NonStatus(ps: seq<SrcProp>): (r: seq<SrcProp>)
    ensures |r| <= |ps|
    ensures forall p :: p in r ==> p in ps && !p.isStatusCode
  {
    if ps == [] then []
    else if ps[0].isStatusCode then NonStatus(ps[1..])
    else [ps[0]] + NonStatus(ps[1..])
  }

  /** The codes of the status-code properties, concatenated in property order. */
  function CodesOf(ps: seq<SrcProp>): seq<string> {
    if ps == [] then []
    else (if ps[0].isStatusCode then ps[0].statusCodes else []) + CodesOf(ps[1..])
  }

  /** Status codes follow the property order across concatenation, so the base model's
      codes come first. */
  lemma {:induction false} CodesOfAppend(a: seq<SrcProp>, b: seq<SrcProp>)
    ensures CodesOf(a + b) == CodesOf(a) + CodesOf(b)
  {
    if a != [] {
      assert (a + b)[0] == a[0] && (a + b)[1..] == a[1..] + b;
      CodesOfAppend(a[1..], b);
    } else {
      assert a + b == b;
    }
  }

  /** A status-code property never reaches the property map. */
  lemma {:induction false} NonStatusAppend(a: seq<SrcProp>, b: seq<SrcProp>)
    ensures NonStatus(a + b) == NonStatus(a) + NonStatus(b)
  {
    if a != [] {
      assert (a + b)[0] == a[0] && (a + b)[1..] == a[1..] + b;
      NonStatusAppend(a[1..], b);
    } else {
      assert a + b == b;
    }
  }

  lemma NonStatusAllIn(g: Graph, ps: seq<SrcProp>)
    requires AllIn(g, ps)
    ensures AllIn(g, NonStatus(ps))
  {
  }

  /** The response `createResponseFromModel` builds for model `id` once `cache` holds the
      model nodes: the model's name, tags and discriminator, the translated non-status
      properties and the concatenated status codes. */
  ghost function ExpectedResponse(g: Graph, cache: map<SrcId, ModelId>, id: SrcId): Response
    requires WellFormed(g) && id in g && g[id].SModel?
  {
    var ps := AllModelProperties(g, id);
    NonStatusAllIn(g, ps);
    Response(g[id].name, g[id].discriminator, ExpectedProps(g, cache, NonStatus(ps)), g[id].isError, CodesOf(ps))
  }

  ghost predicate ResponseSettled(g: Graph, cache: map<SrcId, ModelId>, id: SrcId)
    requires WellFormed(g) && id in g && g[id].SModel?
  {
    var ps := AllModelProperties(g, id);
    NonStatusAllIn(g, ps);
    PropsSettled(g, cache, NonStatus(ps))
  }

  /** The response node of model `k` holds exactly its reference contents. */
  ghost predicate ResponseComplete(g: Graph, ctx: Context, k: SrcId) {
    WellFormed(g) && k in g && g[k].SModel? && k in ctx.responseCache &&
    ctx.responseCache[k] < |ctx.responses| && ResponseSettled(g, ctx.modelCache, k) &&
    ctx.responses[ctx.responseCache[k]] == ExpectedResponse(g, ctx.modelCache, k)
  }

  ghost predicate ResponsesDone(g: Graph, ctx: Context) {
    forall k :: k in ctx.responseCache ==> ResponseComplete(g, ctx, k)
  }

  /** The modeler's invariant: consistent caches whose every node is finished. */
  ghost predicate Done(g: Graph, ctx: Context) {
    CtxOk(g, ctx) && ModelsDone(g, ctx) && ResponsesDone(g, ctx)
  }

  /** Both caches and both arenas only grow. */
  predicate Grows(c1: Context, c2: Context) {
    ModelsGrow(c1, c2) && ResponsesGrow(c1, c2)
  }

  /** Every response node created between `c1` and `c2` is finished. */
  ghost predicate NewResponsesComplete(g: Graph, c1: Context, c2: Context) {
    forall k :: k in c2.responseCache && k !in c1.responseCache ==> ResponseComplete(g, c2, k)
  }

  /** The contract shared by every step of the response and route modeler. */
  ghost predicate Advances(g: Graph, c1: Context, c2: Context) {
    CtxOk(g, c2) && Grows(c1, c2) && NewComplete(g, c1, c2) && NewResponsesComplete(g, c1, c2)
  }

  lemma EmptyContextDone(g: Graph)
    ensures Done(g, EmptyContext())
  {
    EmptyContextOk(g);
  }

  lemma GrowsTrans(c1: Context, c2: Context, c3: Context)
    requires Grows(c1, c2) && Grows(c2, c3)
    ensures Grows(c1, c3)
  {
    ModelsGrowTrans(c1, c2, c3);
    assert c3.responses[..|c1.responses|] == c3.responses[..|c2.responses|][..|c1.responses|];
  }

  lemma ResponseCompleteMono(g: Graph, c1: Context, c2: Context, k: SrcId)
    requires ResponseComplete(g, c1, k) && Grows(c1, c2)
    ensures ResponseComplete(g, c2, k)
  {
    var ps := AllModelProperties(g, k);
    NonStatusAllIn(g, ps);
    ExpectedPropsMono(g, c1.modelCache, c2.modelCache, [], NonStatus(ps));
    assert c2.responses[c1.responseCache[k]] == c2.responses[..|c1.responses|][c1.responseCache[k]];
  }

  lemma NewResponsesCompleteTrans(g: Graph, c1: Context, c2: Context, c3: Context)
    requires NewResponsesComplete(g, c1, c2) && NewResponsesComplete(g, c2, c3) && Grows(c2, c3)
    ensures NewResponsesComplete(g, c1, c3)
  {
    forall k | k in c3.responseCache && k !in c1.responseCache
      ensures ResponseComplete(g, c3, k)
    {
      if k in c2.responseCache {
        ResponseCompleteMono(g, c2, c3, k);
      }
    }
  }

  lemma AdvancesTrans(g: Graph, c1: Context, c2: Context, c3: Context)
    requires Advances(g, c1, c2) && Advances(g, c2, c3)
    ensures Advances(g, c1, c3)
  {
    GrowsTrans(c1, c2, c3);
    NewCompleteTrans(g, c1, c2, c3);
    NewResponsesCompleteTrans(g, c1, c2, c3);
  }

  lemma AdvancesRefl(g: Graph, c: Context)
    requires CtxOk(g, c)
    ensures Advances(g, c, c)
  {
    assert c.models[..|c.models|] == c.models && c.responses[..|c.responses|] == c.responses;
  }

  /** A translator step is a modeler step. */
  lemma EvolvesAdvances(g: Graph, c1: Context, c2: Context)
    requires Evolves(g, c1, c2)
    ensures Advances(g, c1, c2)
  {
    assert c2.responses[..|c1.responses|] == c1.responses;
  }

  /** A modeler step keeps every node finished. */
  lemma AdvancesDone(g: Graph, c1: Context, c2: Context)
    requires Done(g, c1) && Advances(g, c1, c2)
    ensures Done(g, c2)
  {
    forall k | k in c2.modelCache ensures Complete(g, c2, k) {
      if k in c1.modelCache {
        CompleteMono(g, c1, c2, k);
      }
    }
    forall k | k in c2.responseCache ensures ResponseComplete(g, c2, k) {
      if k in c1.responseCache {
        ResponseCompleteMono(g, c1, c2, k);
      }
    }
  }

  // ---------------------------------------------------------------------------
  // createResponseFromModel

  /** What the walk over the properties `ps` of a response model computes once `cache`
      holds the model nodes: the non-status properties translated as the reference says,
      and the codes collected in order. */
  ghost predicate RespWalkOk(g: Graph, cache: map<SrcId, ModelId>, ps: seq<SrcProp>, props: OrderedMap<string, ModelProperty>,
                             codes: seq<string>, value: (OrderedMap<string, ModelProperty>, seq<string>))
  {
    WellFormed(g) && AllIn(g, NonStatus(ps)) && PropsSettled(g, cache, NonStatus(ps)) &&
    value.0 == ExpectedPropsFrom(g, cache, props, NonStatus(ps)) &&
    value.1 == codes + CodesOf(ps)
  }

  /** The loop over the properties of a response model. */
  function WalkResponseProps(g: Graph, ctx: Context, ps: seq<SrcProp>, props: OrderedMap<string, ModelProperty>, codes: seq<string>): (r: Threaded<(OrderedMap<string, ModelProperty>, seq<string>)>)
    requires WellFormed(g) && AllIn(g, ps) && CtxOk(g, ctx)
    ensures Evolves(g, ctx, r.ctx)
    ensures RespWalkOk(g, r.ctx.modelCache, ps, props, codes, r.value)
    decreases |ps|
  {
    if ps == [] then
      EvolvesRefl(g, ctx);
      Threaded((props, codes), ctx)
    else if ps[0].isStatusCode then
      var rest := WalkResponseProps(g, ctx, ps[1..], props, codes + ps[0].statusCodes);
      StatusStep(g, rest.ctx.modelCache, ps, props, codes, rest.value);
      rest
    else
      assert ps[0] in ps;
      var step := CreateModelProperty(g, ctx, ps[0]);
      var rest := WalkResponseProps(g, step.ctx, ps[1..], AddProperty(props, ps[0].name, step.value), codes);
      EvolvesTrans(g, ctx, step.ctx, rest.ctx);
      ResponseWalkStep(g, step.ctx.modelCache, rest.ctx.modelCache, ps, props, codes, step.value, rest.value);
      rest
  }

  lemma StatusStep(g: Graph, cache: map<SrcId, ModelId>, ps: seq<SrcProp>, props: OrderedMap<string, ModelProperty>, codes: seq<string>,
                   value: (OrderedMap<string, ModelProperty>, seq<string>))
    requires ps != [] && ps[0].isStatusCode
    requires RespWalkOk(g, cache, ps[1..], props, codes + ps[0].statusCodes, value)
    ensures RespWalkOk(g, cache, ps, props, codes, value)
  {
    assert NonStatus(ps) == NonStatus(ps[1..]);
  }

  lemma ResponseWalkStep(g: Graph, c1: map<SrcId, ModelId>, c2: map<SrcId, ModelId>, ps: seq<SrcProp>,
                         props: OrderedMap<string, ModelProperty>, codes: seq<string>, stepValue: Option<ModelProperty>,
                         value: (OrderedMap<string, ModelProperty>, seq<string>))
    requires WellFormed(g) && AllIn(g, ps) && ps != [] && !ps[0].isStatusCode && CacheGrows(c1, c2)
    requires Settled(g, c1, ps[0].typ) && stepValue == PropertyOf(g, c1, ps[0])
    requires RespWalkOk(g, c2, ps[1..], AddProperty(props, ps[0].name, stepValue), codes, value)
    ensures RespWalkOk(g, c2, ps, props, codes, value)
  {
    TranslationMono(g, c1, c2, ps[0].typ);
    SettledMono(g, c1, c2, ps[0].typ);
    assert PropertyOf(g, c2, ps[0]) == stepValue;
    var ns := NonStatus(ps);
    assert ns == [ps[0]] + NonStatus(ps[1..]);
    assert ns[0] == ps[0] && ns[1..] == NonStatus(ps[1..]);
    assert ExpectedPropsFrom(g, c2, props, ns) == ExpectedPropsFrom(g, c2, AddProperty(props, ps[0].name, stepValue), ns[1..]);
    assert CodesOf(ps) == [] + CodesOf(ps[1..]) == CodesOf(ps[1..]);
  }

  /** `createResponseFromModel`: a model already seen returns its cached response;
      otherwise a new response is allocated and cached, and filled in after the walk. */
  function CreateResponseFromModel(g: Graph, ctx: Context, id: SrcId): (r: Threaded<ResponseId>)
    requires WellFormed(g) && id in g && g[id].SModel? && CtxOk(g, ctx)
    ensures Advances(g, ctx, r.ctx)
    ensures id in r.ctx.responseCache && r.ctx.responseCache[id] == r.value
    ensures id in ctx.responseCache ==> r == Threaded(ctx.responseCache[id], ctx)
    ensures id !in ctx.responseCache ==>
      r.value == |ctx.responses| && |r.ctx.responses| == |ctx.responses| + 1 && ResponseComplete(g, r.ctx, id)
  {
    if id in ctx.responseCache then
      AdvancesRefl(g, ctx);
      Threaded(ctx.responseCache[id], ctx)
    else
      var n := g[id];
      var rid := |ctx.responses|;
      var ctx1 := ctx.(responseCache := ctx.responseCache[id := rid], responses := ctx.responses + [Response(n.name, n.discriminator, [], n.isError, [])]);
      ResponseCacheInsertOk(g, ctx.responseCache, ctx.responses, id, Response(n.name, n.discriminator, [], n.isError, []));
      assert CtxOk(g, ctx1);
      var ps := AllModelProperties(g, id);
      var w := WalkResponseProps(g, ctx1, ps, [], []);
      var ctx2 := w.ctx.(responses := w.ctx.responses[rid := Response(n.name, n.discriminator, w.value.0, n.isError, w.value.1)]);
      ResponseFinish(g, ctx, ctx1, w, ctx2, id);
      Threaded(rid, ctx2)
  }

  lemma ResponseCacheInsertOk(g: Graph, cache: map<SrcId, ResponseId>, responses: seq<Response>, id: SrcId, d: Response)
    requires ResponseCacheOk(g, cache, responses) && id in g && g[id].SModel? && id !in cache
    ensures ResponseCacheOk(g, cache[id := |responses|], responses + [d])
  {
    InsertFresh(cache, id, |responses|);
  }

  /** What `CreateResponseFromModel` knows after the walk: `ctx1` has the empty response
      allocated, `ctxw` is the context after the walk, `ctx2` the one with the response
      filled in. */
  ghost predicate ResponseWalked(g: Graph, ctx: Context, ctx1: Context, ctxw: Context, ctx2: Context, id: SrcId,
                                 props: OrderedMap<string, ModelProperty>, codes: seq<string>) {
    WellFormed(g) && id in g && g[id].SModel? && CtxOk(g, ctx) && id !in ctx.responseCache &&
    ctx1 == ctx.(responseCache := ctx.responseCache[id := |ctx.responses|], responses := ctx.responses + [Response(g[id].name, g[id].discriminator, [], g[id].isError, [])]) &&
    CtxOk(g, ctx1) && Evolves(g, ctx1, ctxw) &&
    AllIn(g, NonStatus(AllModelProperties(g, id))) &&
    PropsSettled(g, ctxw.modelCache, NonStatus(AllModelProperties(g, id))) &&
    props == ExpectedProps(g, ctxw.modelCache, NonStatus(AllModelProperties(g, id))) &&
    codes == CodesOf(AllModelProperties(g, id)) &&
    ctx2 == ctxw.(responses := ctxw.responses[|ctx.responses| := Response(g[id].name, g[id].discriminator, props, g[id].isError, codes)])
  }

  lemma ResponseFinish(g: Graph, ctx: Context, ctx1: Context, w: Threaded<(OrderedMap<string, ModelProperty>, seq<string>)>, ctx2: Context, id: SrcId)
    requires WellFormed(g) && id in g && g[id].SModel? && CtxOk(g, ctx) && id !in ctx.responseCache
    requires ctx1 == ctx.(responseCache := ctx.responseCache[id := |ctx.responses|], responses := ctx.responses + [Response(g[id].name, g[id].discriminator, [], g[id].isError, [])])
    requires CtxOk(g, ctx1) && Evolves(g, ctx1, w.ctx) && RespWalkOk(g, w.ctx.modelCache, AllModelProperties(g, id), [], [], w.value)
    requires ctx2 == w.ctx.(responses := w.ctx.responses[|ctx.responses| := Response(g[id].name, g[id].discriminator, w.value.0, g[id].isError, w.value.1)])
    ensures Advances(g, ctx, ctx2)
    ensures id in ctx2.responseCache && ctx2.responseCache[id] == |ctx.responses|
    ensures |ctx2.responses| == |ctx.responses| + 1 && ResponseComplete(g, ctx2, id)
  {
    var ctxw, props, codes := w.ctx, w.value.0, w.value.1;
    assert [] + CodesOf(AllModelProperties(g, id)) == CodesOf(AllModelProperties(g, id));
    assert ResponseWalked(g, ctx, ctx1, ctxw, ctx2, id, props, codes);
    assert ModelsGrow(ctx1, ctxw) && ctxw.responseCache == ctx1.responseCache && ctxw.responses == ctx1.responses;
    ResponseWalkedGrows(ctx, ctx1, ctxw, ctx2, Response(g[id].name, g[id].discriminator, [], g[id].isError, []),
                        Response(g[id].name, g[id].discriminator, props, g[id].isError, codes), id);
    ResponseWalkedOk(g, ctx, ctx1, ctxw, ctx2, id, props, codes);
    ResponseWalkedModels(g, ctx, ctx1, ctxw, ctx2, id, props, codes);
    ResponseWalkedSelf(g, ctx, ctx1, ctxw, ctx2, id, props, codes);
    ResponseWalkedOthers(g, ctx, ctx1, ctxw, ctx2, id, props, codes);
  }

  lemma ResponseWalkedGrows(ctx: Context, ctx1: Context, ctxw: Context, ctx2: Context, d0: Response, d: Response, id: SrcId)
    requires id !in ctx.responseCache
    requires ctx1 == ctx.(responseCache := ctx.responseCache[id := |ctx.responses|], responses := ctx.responses + [d0])
    requires ModelsGrow(ctx1, ctxw) && ctxw.responseCache == ctx1.responseCache && ctxw.responses == ctx1.responses
    requires ctx2 == ctxw.(responses := ctxw.responses[|ctx.responses| := d])
    ensures Grows(ctx, ctx2) && |ctx2.responses| == |ctx.responses| + 1
  {
    assert ctx2.responses[..|ctx.responses|] == ctx.responses;
  }

  lemma ResponseWalkedOk(g: Graph, ctx: Context, ctx1: Context, ctxw: Context, ctx2: Context, id: SrcId,
                         props: OrderedMap<string, ModelProperty>, codes: seq<string>)
    requires ResponseWalked(g, ctx, ctx1, ctxw, ctx2, id, props, codes)
    ensures CtxOk(g, ctx2)
    ensures id in ctx2.responseCache && ctx2.responseCache[id] == |ctx.responses| < |ctx2.responses|
  {
    assert ctx2.responseCache == ctxw.responseCache && |ctx2.responses| == |ctxw.responses|;
    assert ctx2.modelCache == ctxw.modelCache && ctx2.models == ctxw.models;
  }

  /** A model node is complete whatever the response side of its context holds. */
  lemma CompleteModelsOnly(g: Graph, c1: Context, c2: Context, k: SrcId)
    requires Complete(g, c1, k) && c2.modelCache == c1.modelCache && c2.models == c1.models
    ensures Complete(g, c2, k)
  {
  }

  lemma ResponseWalkedModels(g: Graph, ctx: Context, ctx1: Context, ctxw: Context, ctx2: Context, id: SrcId,
                             props: OrderedMap<string, ModelProperty>, codes: seq<string>)
    requires ResponseWalked(g, ctx, ctx1, ctxw, ctx2, id, props, codes)
    ensures NewComplete(g, ctx, ctx2)
  {
    assert ctx1.modelCache == ctx.modelCache;
    forall k | k in ctx2.modelCache && k !in ctx.modelCache ensures Complete(g, ctx2, k) {
      CompleteModelsOnly(g, ctxw, ctx2, k);
    }
  }

  lemma ResponseWalkedSelf(g: Graph, ctx: Context, ctx1: Context, ctxw: Context, ctx2: Context, id: SrcId,
                           props: OrderedMap<string, ModelProperty>, codes: seq<string>)
    requires ResponseWalked(g, ctx, ctx1, ctxw, ctx2, id, props, codes)
    ensures ResponseComplete(g, ctx2, id)
  {
    assert ctxw.responseCache == ctx1.responseCache && ctxw.responses == ctx1.responses;
    assert ctx2.responseCache[id] == |ctx.responses| < |ctx2.responses|;
    assert ctx2.modelCache == ctxw.modelCache;
  }

  lemma ResponseWalkedOthers(g: Graph, ctx: Context, ctx1: Context, ctxw: Context, ctx2: Context, id: SrcId,
                             props: OrderedMap<string, ModelProperty>, codes: seq<string>)
    requires ResponseWalked(g, ctx, ctx1, ctxw, ctx2, id, props, codes)
    requires ResponseComplete(g, ctx2, id)
    ensures NewResponsesComplete(g, ctx, ctx2)
  {
    assert ctx2.responseCache == ctx1.responseCache;
    assert forall k :: k in ctx2.responseCache && k !in ctx.responseCache ==> k == id;
  }

  /** In a finished context the cached response of a model has exactly its reference
      contents. */
  lemma CachedResponseContent(g: Graph, ctx: Context, id: SrcId)
    requires Done(g, ctx) && id in ctx.responseCache
    ensures WellFormed(g) && id in g && g[id].SModel? && ctx.responseCache[id] < |ctx.responses|
    ensures ctx.responses[ctx.responseCache[id]] == ExpectedResponse(g, ctx.modelCache, id)
  {
    assert ResponseComplete(g, ctx, id);
  }

  // ---------------------------------------------------------------------------
  // getResponses

  /** The models a return type flattens into: itself when it is a model, the leaves of
      its options in order when it is a union, nothing otherwise. */
  function ResponseLeaves(g: Graph, id: SrcId): (r: seq<SrcId>)
    requires WellFormed(g) && id in g
    ensures forall i :: 0 <= i < |r| ==> r[i] in g && g[r[i]].SModel?
    decreases Rank(g, id), 1, 0
  {
    match g[id]
    case SModel(_, _, _, _, _, _) => [id]
    case SUnion(options) => LeavesFrom(g, id, 0)
    case _ => []
  }

  function LeavesFrom(g: Graph, id: SrcId, k: nat): (r: seq<SrcId>)
    requires WellFormed(g) && id in g && g[id].SUnion? && k <= |g[id].options|
    ensures forall i :: 0 <= i < |r| ==> r[i] in g && g[r[i]].SModel?
    decreases Rank(g, id), 0, |g[id].options| - k
  {
    if k == |g[id].options| then []
    else
      RankEdges(g, id);
      NodeIsClosed(g, id);
      assert g[id].options[k] in g[id].options;
      ResponseLeaves(g, g[id].options[k]) + LeavesFrom(g, id, k + 1)
  }

  /** `ids` are the cached responses of the models `leaves`, position by position. */
  predicate Answers(ctx: Context, leaves: seq<SrcId>, ids: seq<ResponseId>) {
    |ids| == |leaves| &&
    forall i :: 0 <= i < |ids| ==> leaves[i] in ctx.responseCache && ctx.responseCache[leaves[i]] == ids[i]
  }

  lemma AnswersMono(c1: Context, c2: Context, leaves: seq<SrcId>, ids: seq<ResponseId>)
    requires Answers(c1, leaves, ids) && Grows(c1, c2)
    ensures Answers(c2, leaves, ids)
  {
  }

  lemma AnswersConcat(ctx: Context, l1: seq<SrcId>, i1: seq<ResponseId>, l2: seq<SrcId>, i2: seq<ResponseId>)
    requires Answers(ctx, l1, i1) && Answers(ctx, l2, i2)
    ensures Answers(ctx, l1 + l2, i1 + i2)
  {
    forall i | 0 <= i < |i1 + i2|
      ensures (l1 + l2)[i] in ctx.responseCache && ctx.responseCache[(l1 + l2)[i]] == (i1 + i2)[i]
    {
      if i >= |i1| {
        assert (l1 + l2)[i] == l2[i - |l1|];
      }
    }
  }

  /** `getResponses`. */
  function GetResponses(g: Graph, ctx: Context, id: SrcId): (r: Threaded<seq<ResponseId>>)
    requires WellFormed(g) && id in g && CtxOk(g, ctx)
    ensures Advances(g, ctx, r.ctx)
    ensures Answers(r.ctx, ResponseLeaves(g, id), r.value)
    decreases Rank(g, id), 1, 0
  {
    match g[id]
    case SModel(_, _, _, _, _, _) =>
      var one := CreateResponseFromModel(g, ctx, id);
      Threaded([one.value], one.ctx)
    case SUnion(options) => GetResponsesFrom(g, ctx, id, 0)
    case _ =>
      AdvancesRefl(g, ctx);
      Threaded([], ctx)
  }

  /** The loop over a union's options from position `k` on. */
  function GetResponsesFrom(g: Graph, ctx: Context, id: SrcId, k: nat): (r: Threaded<seq<ResponseId>>)
    requires WellFormed(g) && id in g && g[id].SUnion? && k <= |g[id].options| && CtxOk(g, ctx)
    ensures Advances(g, ctx, r.ctx)
    ensures Answers(r.ctx, LeavesFrom(g, id, k), r.value)
    decreases Rank(g, id), 0, |g[id].options| - k
  {
    if k == |g[id].options| then
      AdvancesRefl(g, ctx);
      Threaded([], ctx)
    else
      RankEdges(g, id);
      NodeIsClosed(g, id);
      var o := g[id].options[k];
      assert o in g[id].options;
      var first := GetResponses(g, ctx, o);
      var rest := GetResponsesFrom(g, first.ctx, id, k + 1);
      AdvancesTrans(g, ctx, first.ctx, rest.ctx);
      AnswersMono(first.ctx, rest.ctx, ResponseLeaves(g, o), first.value);
      AnswersConcat(rest.ctx, ResponseLeaves(g, o), first.value, LeavesFrom(g, id, k + 1), rest.value);
      Threaded(first.value + rest.value, rest.ctx)
  }

  /** The same model asked for twice gets the identical response, and the second call
      changes nothing. */
  lemma ResponseCachedOnce(g: Graph, ctx: Context, id: SrcId)
    requires WellFormed(g) && id in g && g[id].SModel? && CtxOk(g, ctx)
    ensures var r1 := CreateResponseFromModel(g, ctx, id);
            CreateResponseFromModel(g, r1.ctx, id) == r1
  {
  }

  /** Nested unions flatten at any depth: a union of a union of models has the models'
      responses in order. */
  lemma NestedUnionFlattens(g: Graph, u: SrcId, v: SrcId, a: SrcId, b: SrcId, c: SrcId)
    requires WellFormed(g) && u in g && v in g && a in g && b in g && c in g
    requires g[u] == SUnion([a, v]) && g[v] == SUnion([b, c])
    requires g[a].SModel? && g[b].SModel? && g[c].SModel?
    ensures ResponseLeaves(g, u) == [a, b, c]
  {
    assert ResponseLeaves(g, a) == [a] && ResponseLeaves(g, b) == [b] && ResponseLeaves(g, c) == [c];
    assert LeavesFrom(g, v, 2) == [];
    assert LeavesFrom(g, v, 1) == [c];
    assert LeavesFrom(g, v, 0) == [b, c];
    assert LeavesFrom(g, u, 2) == [];
    assert LeavesFrom(g, u, 1) == [b, c];
    assert ResponseLeaves(g, v) == [b, c];
    assert LeavesFrom(g, u, 0) == [a, b, c];
  }
}
