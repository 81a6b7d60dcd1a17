/** `getParameters` of packages/emitter/src/modeler/parameters.ts.

    The host hands the modeler an operation's parameters as an optional body property
    and a list of route parameters, each tagged with the place the route puts it. The
    body comes first, then the route parameters in order; a parameter whose type does
    not translate is dropped. */
module ModelerParameters {
  import opened Wrappers
  import opened Ir
  import opened Source
  import opened Common

  /** Where the route puts a non-body parameter. */
  datatype RouteLocation = QueryLoc | PathLoc | HeaderLoc

  datatype RouteParam = RouteParam(location: RouteLocation, param: SrcProp)

  /** The host's `HttpOperationParameters`. */
  datatype RouteParams = RouteParams(body: Option<SrcProp>, parameters: seq<RouteParam>)

  function LocationOf(l: RouteLocation): (r: ParameterLocation)
    ensures r != BodyParam
  {
    match l
    case QueryLoc => QueryParam
    case PathLoc => PathParam
    case HeaderLoc => HeaderParam
  }

  /** The route places are the three non-body parameter locations, one to one. */
  lemma LocationOfBijective(l1: RouteLocation, l2: RouteLocation, loc: ParameterLocation)
    ensures LocationOf(l1) == LocationOf(l2) <==> l1 == l2
    ensures loc != BodyParam ==> exists l :: LocationOf(l) == loc
  {
    if loc == QueryParam { assert LocationOf(QueryLoc) == loc; }
    if loc == PathParam { assert LocationOf(PathLoc) == loc; }
    if loc == HeaderParam { assert LocationOf(HeaderLoc) == loc; }
  }

  ghost predicate RouteParamsIn(g: Graph, ps: seq<RouteParam>) {
    forall p :: p in ps ==> p.param.typ in g
  }

  ghost predicate ParamsIn(g: Graph, rp: RouteParams) {
    (rp.body.Some? ==> rp.body.value.typ in g) && RouteParamsIn(g, rp.parameters)
  }

  // ---------------------------------------------------------------------------
  // Reference definition under a fixed model cache

  /** The parameter a route parameter becomes once its type is translated. */
  function RouteParameter(p: RouteParam, t: RestType): (r: Parameter)
  {
    Parameter(p.param.name, p.param.headerFieldName, LocationOf(p.location), t, p.param.optional)
  }

  /** The body parameter, which has no serialized name. */
  function BodyParameter(b: SrcProp, t: RestType): (r: Parameter)
  {
    Parameter(b.name, None, BodyParam, t, b.optional)
  }

  ghost function ExpectedRouteParams(g: Graph, cache: map<SrcId, ModelId>, ps: seq<RouteParam>): seq<Parameter>
    requires WellFormed(g) && RouteParamsIn(g, ps)
    decreases |ps|
  {
    if ps == [] then []
    else
      var head := match Translation(g, cache, ps[0].param.typ)
        case Some(t) => [RouteParameter(ps[0], t)]
        case None => [];
      head + ExpectedRouteParams(g, cache, ps[1..])
  }

  ghost function ExpectedBody(g: Graph, cache: map<SrcId, ModelId>, body: Option<SrcProp>): seq<Parameter>
    requires WellFormed(g) && (body.Some? ==> body.value.typ in g)
  {
    if body.None? then []
    else match Translation(g, cache, body.value.typ)
      case Some(t) => [BodyParameter(body.value, t)]
      case None => []
  }

  /** The parameter list `getParameters` builds once `cache` holds every model node. */
  ghost function ExpectedParams(g: Graph, cache: map<SrcId, ModelId>, rp: RouteParams): seq<Parameter>
    requires WellFormed(g) && ParamsIn(g, rp)
  {
    ExpectedBody(g, cache, rp.body) + ExpectedRouteParams(g, cache, rp.parameters)
  }

  ghost predicate RouteParamsSettled(g: Graph, cache: map<SrcId, ModelId>, ps: seq<RouteParam>)
    requires WellFormed(g) && RouteParamsIn(g, ps)
  {
    forall p :: p in ps ==> Settled(g, cache, p.param.typ)
  }

  /** The route parameters whose type translates, in input order. */
  ghost function Kept(g: Graph, ps: seq<RouteParam>): (r: seq<RouteParam>)
    requires WellFormed(g) && RouteParamsIn(g, ps)
    ensures |r| <= |ps| && RouteParamsIn(g, r)
    decreases |ps|
  {
    if ps == [] then []
    else (if Translatable(g, ps[0].param.typ) then [ps[0]] else []) + Kept(g, ps[1..])
  }

  // ---------------------------------------------------------------------------
  // Properties of the reference

  /** Exactly the route parameters whose type translates survive. */
  lemma {:induction false} KeptExactly(g: Graph, ps: seq<RouteParam>, p: RouteParam)
    requires WellFormed(g) && RouteParamsIn(g, ps)
    ensures p in Kept(g, ps) <==> p in ps && Translatable(g, p.param.typ)
    decreases |ps|
  {
    if ps != [] {
      KeptExactly(g, ps[1..], p);
      assert p in ps <==> p == ps[0] || p in ps[1..];
    }
  }

  /** The kept route parameters become the parameters in order, each with the route's
      place, its own name, optional flag and header field name and its translated type. */
  lemma {:induction false} RouteParamsKept(g: Graph, cache: map<SrcId, ModelId>, ps: seq<RouteParam>)
    requires WellFormed(g) && RouteParamsIn(g, ps) && RouteParamsSettled(g, cache, ps)
    ensures var r := ExpectedRouteParams(g, cache, ps); var k := Kept(g, ps);
      |r| == |k| &&
      forall i :: 0 <= i < |r| ==>
        Translation(g, cache, k[i].param.typ) == Some(r[i].typ) && r[i] == RouteParameter(k[i], r[i].typ)
    decreases |ps|
  {
    if ps != [] {
      RouteParamsKept(g, cache, ps[1..]);
      SettledTranslates(g, cache, ps[0].param.typ);
      var r := ExpectedRouteParams(g, cache, ps);
      var k := Kept(g, ps);
      var r' := ExpectedRouteParams(g, cache, ps[1..]);
      var k' := Kept(g, ps[1..]);
      var d := if Translatable(g, ps[0].param.typ) then 1 else 0;
      assert r == r[..d] + r' && k == k[..d] + k';
      forall i | d <= i < |r|
        ensures Translation(g, cache, k[i].param.typ) == Some(r[i].typ) && r[i] == RouteParameter(k[i], r[i].typ)
      {
        assert r[i] == r'[i - d] && k[i] == k'[i - d];
      }
    }
  }

  /** A list of route parameters whose types all translate maps one to one, in order. */
  lemma RouteParamsAllKept(g: Graph, cache: map<SrcId, ModelId>, ps: seq<RouteParam>)
    requires WellFormed(g) && RouteParamsIn(g, ps) && RouteParamsSettled(g, cache, ps)
    requires forall p :: p in ps ==> Translatable(g, p.param.typ)
    ensures |ExpectedRouteParams(g, cache, ps)| == |ps|
    ensures forall i :: 0 <= i < |ps| ==>
      ExpectedRouteParams(g, cache, ps)[i] == RouteParameter(ps[i], ExpectedRouteParams(g, cache, ps)[i].typ)
  {
    KeptAll(g, ps);
    RouteParamsKept(g, cache, ps);
  }

  lemma {:induction false} KeptAll(g: Graph, ps: seq<RouteParam>)
    requires WellFormed(g) && RouteParamsIn(g, ps)
    requires forall p :: p in ps ==> Translatable(g, p.param.typ)
    ensures Kept(g, ps) == ps
    decreases |ps|
  {
    if ps != [] {
      KeptAll(g, ps[1..]);
      assert ps[0] in ps;
    }
  }

  /** The body, when present and translatable, is the first parameter and the only one
      located in the body; the list has at most one entry more than the route
      parameters. */
  lemma BodyFirst(g: Graph, cache: map<SrcId, ModelId>, rp: RouteParams)
    requires WellFormed(g) && ParamsIn(g, rp) && RouteParamsSettled(g, cache, rp.parameters)
    requires rp.body.Some? ==> Settled(g, cache, rp.body.value.typ)
    ensures var r := ExpectedParams(g, cache, rp);
      |r| <= (if rp.body.Some? then 1 else 0) + |rp.parameters| &&
      (forall i :: 0 <= i < |r| ==>
        (r[i].location == BodyParam <==> i == 0 && rp.body.Some? && Translatable(g, rp.body.value.typ))) &&
      (rp.body.Some? && Translatable(g, rp.body.value.typ) ==>
        |r| > 0 && Translation(g, cache, rp.body.value.typ) == Some(r[0].typ) &&
        r[0] == BodyParameter(rp.body.value, r[0].typ))
  {
    RouteParamsKept(g, cache, rp.parameters);
    if rp.body.Some? {
      SettledTranslates(g, cache, rp.body.value.typ);
    }
    var b := ExpectedBody(g, cache, rp.body);
    var rest := ExpectedRouteParams(g, cache, rp.parameters);
    var r := ExpectedParams(g, cache, rp);
    forall i | |b| <= i < |r| ensures r[i].location != BodyParam {
      assert r[i] == rest[i - |b|];
    }
  }

  /** Growing the cache does not change the reference once the types are settled. */
  lemma {:induction false} ExpectedRouteParamsMono(g: Graph, c1: map<SrcId, ModelId>, c2: map<SrcId, ModelId>, ps: seq<RouteParam>)
    requires WellFormed(g) && RouteParamsIn(g, ps) && CacheGrows(c1, c2) && RouteParamsSettled(g, c1, ps)
    ensures ExpectedRouteParams(g, c2, ps) == ExpectedRouteParams(g, c1, ps)
    ensures RouteParamsSettled(g, c2, ps)
    decreases |ps|
  {
    if ps != [] {
      ExpectedRouteParamsMono(g, c1, c2, ps[1..]);
      TranslationMono(g, c1, c2, ps[0].param.typ);
      SettledMono(g, c1, c2, ps[0].param.typ);
    }
  }

  /** The reference for a whole parameter list is stable under cache growth. */
  lemma ExpectedParamsMono(g: Graph, c1: map<SrcId, ModelId>, c2: map<SrcId, ModelId>, rp: RouteParams)
    requires WellFormed(g) && ParamsIn(g, rp) && CacheGrows(c1, c2) && ParamsSettled(g, c1, rp)
    ensures ExpectedParams(g, c2, rp) == ExpectedParams(g, c1, rp)
    ensures ParamsSettled(g, c2, rp)
  {
    ExpectedRouteParamsMono(g, c1, c2, rp.parameters);
    if rp.body.Some? {
      TranslationMono(g, c1, c2, rp.body.value.typ);
      SettledMono(g, c1, c2, rp.body.value.typ);
    }
  }

  /** Every type the parameter list refers to is settled under `cache`. */
  ghost predicate ParamsSettled(g: Graph, cache: map<SrcId, ModelId>, rp: RouteParams)
    requires WellFormed(g) && ParamsIn(g, rp)
  {
    RouteParamsSettled(g, cache, rp.parameters) &&
    (rp.body.Some? ==> Settled(g, cache, rp.body.value.typ))
  }

  // ---------------------------------------------------------------------------
  // getParameters

  /** What the loop over the route parameters computes once `cache` holds the model
      nodes. */
  ghost predicate RouteWalkOk(g: Graph, cache: map<SrcId, ModelId>, ps: seq<RouteParam>, value: seq<Parameter>) {
    WellFormed(g) && RouteParamsIn(g, ps) && RouteParamsSettled(g, cache, ps) &&
    value == ExpectedRouteParams(g, cache, ps)
  }

  /** The loop over `params.parameters`. */
  function GetRouteParams(g: Graph, ctx: Context, ps: seq<RouteParam>): (r: Threaded<seq<Parameter>>)
    requires WellFormed(g) && RouteParamsIn(g, ps) && CtxOk(g, ctx)
    ensures Evolves(g, ctx, r.ctx)
    ensures RouteWalkOk(g, r.ctx.modelCache, ps, r.value)
    decreases |ps|
  {
    if ps == [] then
      EvolvesRefl(g, ctx);
      Threaded([], ctx)
    else
      var t := CreateRestType(g, ctx, ps[0].param.typ);
      var rest := GetRouteParams(g, t.ctx, ps[1..]);
      EvolvesTrans(g, ctx, t.ctx, rest.ctx);
      var head := if t.value.Some? then [RouteParameter(ps[0], t.value.value)] else [];
      RouteStep(g, t.ctx.modelCache, rest.ctx.modelCache, ps, t.value, rest.value);
      Threaded(head + rest.value, rest.ctx)
  }

  lemma RouteStep(g: Graph, c1: map<SrcId, ModelId>, c2: map<SrcId, ModelId>, ps: seq<RouteParam>,
                  step: Option<RestType>, rest: seq<Parameter>)
    requires WellFormed(g) && RouteParamsIn(g, ps) && ps != [] && CacheGrows(c1, c2)
    requires Settled(g, c1, ps[0].param.typ) && step == Translation(g, c1, ps[0].param.typ)
    requires RouteWalkOk(g, c2, ps[1..], rest)
    ensures RouteWalkOk(g, c2, ps, (if step.Some? then [RouteParameter(ps[0], step.value)] else []) + rest)
  {
    TranslationMono(g, c1, c2, ps[0].param.typ);
    SettledMono(g, c1, c2, ps[0].param.typ);
  }

  /** `getParameters`: the body first, then the route parameters, each dropped when its
      type does not translate. */
  function GetParameters(g: Graph, ctx: Context, rp: RouteParams): (r: Threaded<seq<Parameter>>)
    requires WellFormed(g) && ParamsIn(g, rp) && CtxOk(g, ctx)
    ensures Evolves(g, ctx, r.ctx)
    ensures ParamsSettled(g, r.ctx.modelCache, rp)
    ensures r.value == ExpectedParams(g, r.ctx.modelCache, rp)
  {
    if rp.body.None? then
      var rest := GetRouteParams(g, ctx, rp.parameters);
      rest
    else
      var b := rp.body.value;
      var t := CreateRestType(g, ctx, b.typ);
      var rest := GetRouteParams(g, t.ctx, rp.parameters);
      EvolvesTrans(g, ctx, t.ctx, rest.ctx);
      TranslationMono(g, t.ctx.modelCache, rest.ctx.modelCache, b.typ);
      SettledMono(g, t.ctx.modelCache, rest.ctx.modelCache, b.typ);
      var head := if t.value.Some? then [BodyParameter(b, t.value.value)] else [];
      Threaded(head + rest.value, rest.ctx)
  }
}
