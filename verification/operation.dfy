/** One method of the generated client (packages/emitter/src/generators/operation.ts):
    its signature, its return type, and the body that builds the request, sends it and
    parses the response. */
module OperationCode {
  import opened Wrappers
  import opened Strings
  import opened Ordered
  import opened Ir
  import opened Cache
  import opened Interfaces
  import opened ParameterCode
  import opened ResponseCode

  /** The operation's parameter types and responses point into the arenas. */
  predicate OperationOk(models: seq<ModelDecl>, responses: seq<Response>, op: Operation) {
    ParamsBelow(op.parameters, |models|) && IdsBelow(op.responses, |responses|)
  }

  /** The `method:` line of the request: absent for `GET`, the default verb. */
  function RequestMethod(verb: HttpVerb): (r: string)
    ensures r == [] <==> verb == GET
    ensures verb != GET ==> StartsWith(r, "method: \"") && EndsWith(r, VerbText(verb) + "\",")
  {
    if verb == GET then ""
    else
      var r := "method: \"" + VerbText(verb) + "\",";
      assert r[..|"method: \""|] == "method: \"";
      assert r[|r| - |VerbText(verb) + "\","|..] == VerbText(verb) + "\",";
      r
  }

  /** The responses that are not errors (`filter(notErrorResponse)`), in order. */
  function NonErrorIds(responses: seq<Response>, ids: seq<ResponseId>): (r: seq<ResponseId>)
    requires IdsBelow(ids, |responses|)
    ensures IdsBelow(r, |responses|) && |r| <= |ids|
    ensures forall i :: 0 <= i < |r| ==> r[i] in ids && NotErrorResponse(responses[r[i]])
    ensures forall i :: 0 <= i < |ids| && NotErrorResponse(responses[ids[i]]) ==> ids[i] in r
  {
    if ids == [] then []
    else
      var rest := NonErrorIds(responses, ids[1..]);
      assert forall i :: 1 <= i < |ids| ==> ids[i] == ids[1..][i - 1];
      if NotErrorResponse(responses[ids[0]]) then [ids[0]] + rest else rest
  }

  /** Every response among `ids` has its interface. */
  predicate NamesCached(rc: Cached, ids: seq<ResponseId>) {
    forall i :: 0 <= i < |ids| ==> ids[i] in rc.entries
  }

  /** The interface names of the responses `ids`, read off the response cache. */
  function NamesRender(rc: Cached, ids: seq<ResponseId>): (r: seq<string>)
    requires NamesCached(rc, ids)
    ensures |r| == |ids| && forall i :: 0 <= i < |ids| ==> r[i] == rc.entries[ids[i]].name
  {
    seq(|ids|, i requires 0 <= i < |ids| && NamesCached(rc, ids) => rc.entries[ids[i]].name)
  }

  /** The `map(responseToTypeScript)` of `createReturnType`. A response met before keeps
      its earlier name; every other one is named after this operation. */
  function ResponseNamesToTypeScript(models: seq<ModelDecl>, responses: seq<Response>, ctx: ClientContext, ids: seq<ResponseId>, operationName: string): (r: Emitted<seq<string>>)
    requires ArenaOk(models) && ResponsesOk(models, responses) && ContextOk(models, ctx) && IdsBelow(ids, |responses|)
    ensures Advances(models, ctx, r.ctx)
    ensures r.ctx.extraCorePipelineImports == ctx.extraCorePipelineImports
    ensures r.ctx.extraClientLibImports == ctx.extraClientLibImports
    ensures NamesCached(r.ctx.responseCache, ids) && r.value == NamesRender(r.ctx.responseCache, ids)
    ensures r.ctx.responseCache.entries.Keys == ctx.responseCache.entries.Keys + set k | k in ids
    ensures forall i :: 0 <= i < |ids| && ids[i] in ctx.responseCache.entries ==> r.value[i] == ctx.responseCache.entries[ids[i]].name
    ensures forall i :: 0 <= i < |ids| && ids[i] !in ctx.responseCache.entries ==> r.value[i] == operationName + "Response"
    decreases |ids|
  {
    if ids == [] then
      AdvancesRefl(models, ctx);
      Emitted([], ctx)
    else
      var x := ResponseToTypeScript(models, responses, ctx, ids[0], operationName);
      var rest := ResponseNamesToTypeScript(models, responses, x.ctx, ids[1..], operationName);
      AdvancesTrans(models, ctx, x.ctx, rest.ctx);
      NamesStep(ctx.responseCache, x.ctx.responseCache, rest.ctx.responseCache, ids, x.value, rest.value, operationName);
      Emitted([x.value] + rest.value, rest.ctx)
  }

  lemma NamesStep(c0: Cached, c1: Cached, c2: Cached, ids: seq<ResponseId>, v: string, rest: seq<string>, operationName: string)
    requires ids != [] && CachedGrows(c0, c1) && CachedGrows(c1, c2)
    requires c1.entries.Keys == c0.entries.Keys + {ids[0]} && v == c1.entries[ids[0]].name
    requires ids[0] in c0.entries ==> v == c0.entries[ids[0]].name
    requires ids[0] !in c0.entries ==> v == operationName + "Response"
    requires NamesCached(c2, ids[1..]) && rest == NamesRender(c2, ids[1..])
    requires c2.entries.Keys == c1.entries.Keys + set k | k in ids[1..]
    requires forall i :: 0 <= i < |ids[1..]| && ids[1..][i] in c1.entries ==> rest[i] == c1.entries[ids[1..][i]].name
    requires forall i :: 0 <= i < |ids[1..]| && ids[1..][i] !in c1.entries ==> rest[i] == operationName + "Response"
    ensures NamesCached(c2, ids) && [v] + rest == NamesRender(c2, ids)
    ensures c2.entries.Keys == c0.entries.Keys + set k | k in ids
    ensures forall i :: 0 <= i < |ids| && ids[i] in c0.entries ==> ([v] + rest)[i] == c0.entries[ids[i]].name
    ensures forall i :: 0 <= i < |ids| && ids[i] !in c0.entries ==> ([v] + rest)[i] == operationName + "Response"
  {
    NamesKeysStep(c0.entries.Keys, c1.entries.Keys, c2.entries.Keys, ids);
    NamesRenderStep(c2, ids, v, rest);
    NamesOriginStep(c0, c1, ids, v, rest, operationName);
  }

  lemma NamesKeysStep(k0: set<nat>, k1: set<nat>, k2: set<nat>, ids: seq<ResponseId>)
    requires ids != [] && k1 == k0 + {ids[0]} && k2 == k1 + set k | k in ids[1..]
    ensures k2 == k0 + set k | k in ids
  {
    assert (set k | k in ids) == {ids[0]} + set k | k in ids[1..] by {
      assert forall k :: k in ids <==> k == ids[0] || k in ids[1..];
    }
  }

  lemma NamesRenderStep(c2: Cached, ids: seq<ResponseId>, v: string, rest: seq<string>)
    requires ids != [] && ids[0] in c2.entries && v == c2.entries[ids[0]].name
    requires NamesCached(c2, ids[1..]) && rest == NamesRender(c2, ids[1..])
    ensures NamesCached(c2, ids) && [v] + rest == NamesRender(c2, ids)
  {
    forall i | 1 <= i < |ids|
      ensures ids[i] in c2.entries && ([v] + rest)[i] == c2.entries[ids[i]].name
    {
      assert ids[i] == ids[1..][i - 1];
    }
  }

  lemma NamesOriginStep(c0: Cached, c1: Cached, ids: seq<ResponseId>, v: string, rest: seq<string>, operationName: string)
    requires ids != [] && CachedGrows(c0, c1)
    requires c1.entries.Keys == c0.entries.Keys + {ids[0]} && v == c1.entries[ids[0]].name
    requires ids[0] in c0.entries ==> v == c0.entries[ids[0]].name
    requires ids[0] !in c0.entries ==> v == operationName + "Response"
    requires |rest| == |ids[1..]|
    requires forall i :: 0 <= i < |ids[1..]| && ids[1..][i] in c1.entries ==> rest[i] == c1.entries[ids[1..][i]].name
    requires forall i :: 0 <= i < |ids[1..]| && ids[1..][i] !in c1.entries ==> rest[i] == operationName + "Response"
    ensures forall i :: 0 <= i < |ids| && ids[i] in c0.entries ==> ([v] + rest)[i] == c0.entries[ids[i]].name
    ensures forall i :: 0 <= i < |ids| && ids[i] !in c0.entries ==> ([v] + rest)[i] == operationName + "Response"
  {
    var s := [v] + rest;
    forall i | 1 <= i < |ids|
      ensures ids[i] in c0.entries ==> s[i] == c0.entries[ids[i]].name
      ensures ids[i] !in c0.entries ==> s[i] == operationName + "Response"
    {
      assert ids[i] == ids[1..][i - 1] && s[i] == rest[i - 1];
    }
  }

  /** `createReturnType`: the interface names of the non-error responses, as a union. */
  function CreateReturnType(models: seq<ModelDecl>, responses: seq<Response>, ctx: ClientContext, op: Operation): (r: Emitted<string>)
    requires ArenaOk(models) && ResponsesOk(models, responses) && ContextOk(models, ctx) && IdsBelow(op.responses, |responses|)
    ensures Advances(models, ctx, r.ctx)
    ensures r.ctx.extraCorePipelineImports == ctx.extraCorePipelineImports
    ensures r.ctx.extraClientLibImports == ctx.extraClientLibImports
    ensures r.ctx.responseCache.entries.Keys ==
      ctx.responseCache.entries.Keys + (set k | k in NonErrorIds(responses, op.responses))
    ensures NamesCached(r.ctx.responseCache, NonErrorIds(responses, op.responses))
    ensures r.value == Join(NamesRender(r.ctx.responseCache, NonErrorIds(responses, op.responses)), " | ")
  {
    var names := ResponseNamesToTypeScript(models, responses, ctx, NonErrorIds(responses, op.responses), op.name);
    Emitted(Join(names.value, " | "), names.ctx)
  }

  /** The fixed pieces of the method template. */
  const UrlOpen: string := "const url = getRequestUrl({\nbase: this._endpoint,\npath: "
  const RequestOpen: string := "const request = createPipelineRequest({\nurl,\n"
  const MakeRequest: string := "const response = await makeRequest(this._pipeline, request);\n"

  /** The method template: signature, URL, request, headers, body, the call and the
      response parsing, in that order. */
  function OperationText(name: string, params: string, returnType: string, path: string, queryParams: string,
                         requestMethod: string, headers: string, body: string, parseResponse: string): string
  {
    "public async " + name + "(" + params + "): Promise<" + returnType + "> {\n" +
    UrlOpen + path + ",\nqueryParams: " + queryParams + ",\n});\n" +
    RequestOpen + requestMethod + "\n});\n\n" +
    headers + "\n" + body + "\n\n" +
    MakeRequest + parseResponse + "\n}"
  }

  /** Everything the method text reads off the state is there. */
  predicate Rendered(responses: seq<Response>, c: ClientContext, op: Operation)
    requires IdsBelow(op.responses, |responses|)
  {
    ParamsCached(c.interfaceCache.entries, op.parameters) &&
    NamesCached(c.responseCache, NonErrorIds(responses, op.responses)) &&
    HandlersCached(c.interfaceCache.entries, responses, op.responses)
  }

  /** The method text read off the final state: each piece as the generator for it
      describes it. */
  function OperationRender(responses: seq<Response>, c: ClientContext, op: Operation, queryParams: string): string
    requires IdsBelow(op.responses, |responses|) && Rendered(responses, c, op)
  {
    OperationText(
      op.name,
      Join(ParamsRender(c.interfaceCache.entries, op.parameters), ", "),
      Join(NamesRender(c.responseCache, NonErrorIds(responses, op.responses)), " | "),
      GetPathFromParameters(c, op).value,
      queryParams,
      RequestMethod(op.verb),
      GetHeadersFromParameters(op),
      GetBody(op),
      ParseResponseRender(c.interfaceCache.entries, responses, op.responses))
  }

  /** Some query parameter has a type the query string cannot carry. */
  predicate HasUnsupportedQuery(op: Operation) {
    exists p :: p in op.parameters && p.location == QueryParam && QueryUnsupported(p.typ)
  }

  /** The query object of an operation whose query parameters can all be written. */
  function QueryText(op: Operation): string
    requires !HasUnsupportedQuery(op)
  {
    GetQueryParamsFromParameters(op).value
  }

  /** An operation `createOperation` writes a method for. */
  predicate Emittable(responses: seq<Response>, op: Operation) {
    IdsBelow(op.responses, |responses|) && !HasUnsupportedQuery(op)
  }

  /** The method text of such an operation, read off the state `c`. */
  function MethodText(responses: seq<Response>, c: ClientContext, op: Operation): string
    requires Emittable(responses, op) && Rendered(responses, c, op)
  {
    OperationRender(responses, c, op, QueryText(op))
  }

  /** A method text read off an earlier state reads the same off a later one. */
  lemma MethodTextMono(responses: seq<Response>, c1: ClientContext, c2: ClientContext, op: Operation)
    requires Emittable(responses, op) && Rendered(responses, c1, op)
    requires CachedGrows(c1.interfaceCache, c2.interfaceCache) && CachedGrows(c1.responseCache, c2.responseCache)
    ensures Rendered(responses, c2, op)
    ensures MethodText(responses, c2, op) == MethodText(responses, c1, op)
  {
    var e1, e2 := c1.interfaceCache.entries, c2.interfaceCache.entries;
    ParamsRenderMono(e1, e2, op.parameters);
    HandlersRenderMono(e1, e2, responses, op.responses);
    var ids := NonErrorIds(responses, op.responses);
    assert NamesRender(c2.responseCache, ids) == NamesRender(c1.responseCache, ids);
    PathValue(c1, c2, op);
  }

  /** The imports an operation needs: `RestError` unless a response has no status
      codes, `replacePathParameters` for path parameters, `getHeader` for response
      headers. */
  predicate OperationImports(responses: seq<Response>, c1: ClientContext, c2: ClientContext, op: Operation)
    requires IdsBelow(op.responses, |responses|)
  {
    ("RestError" in c2.extraCorePipelineImports <==>
      "RestError" in c1.extraCorePipelineImports || !HasDefault(responses, op.responses)) &&
    ("replacePathParameters" in c2.extraClientLibImports <==>
      "replacePathParameters" in c1.extraClientLibImports || OfLocation(op.parameters, PathParam) != []) &&
    ("getHeader" in c2.extraClientLibImports <==>
      "getHeader" in c1.extraClientLibImports || AnyHeaders(responses, op.responses))
  }

  /** The signature pieces: the parameter list, then the return type. */
  function OperationHead(models: seq<ModelDecl>, responses: seq<Response>, ctx: ClientContext, op: Operation): (r: Emitted<(string, string)>)
    requires ArenaOk(models) && ResponsesOk(models, responses) && ContextOk(models, ctx) && OperationOk(models, responses, op)
    ensures Advances(models, ctx, r.ctx)
    ensures r.ctx.extraCorePipelineImports == ctx.extraCorePipelineImports
    ensures r.ctx.extraClientLibImports == ctx.extraClientLibImports
    ensures r.ctx.responseCache.entries.Keys ==
      ctx.responseCache.entries.Keys + (set k | k in NonErrorIds(responses, op.responses))
    ensures ParamsCached(r.ctx.interfaceCache.entries, op.parameters)
    ensures NamesCached(r.ctx.responseCache, NonErrorIds(responses, op.responses))
    ensures r.value.0 == Join(ParamsRender(r.ctx.interfaceCache.entries, op.parameters), ", ")
    ensures r.value.1 == Join(NamesRender(r.ctx.responseCache, NonErrorIds(responses, op.responses)), " | ")
  {
    var params := CreateOperationParams(models, ctx, op);
    ExtendsAdvances(models, ctx, params.ctx);
    var returnType := CreateReturnType(models, responses, params.ctx, op);
    AdvancesTrans(models, ctx, params.ctx, returnType.ctx);
    ParamsRenderMono(params.ctx.interfaceCache.entries, returnType.ctx.interfaceCache.entries, op.parameters);
    Emitted((params.value, returnType.value), returnType.ctx)
  }

  /** The pieces after the query string: the path expression, then the response
      parsing. */
  function OperationTail(models: seq<ModelDecl>, responses: seq<Response>, ctx: ClientContext, op: Operation): (r: Emitted<(string, string)>)
    requires ArenaOk(models) && ResponsesOk(models, responses) && ContextOk(models, ctx) && OperationOk(models, responses, op)
    ensures Advances(models, ctx, r.ctx)
    ensures r.ctx.responseCache == ctx.responseCache
    ensures OperationImports(responses, ctx, r.ctx, op)
    ensures HandlersCached(r.ctx.interfaceCache.entries, responses, op.responses)
    ensures r.value.0 == GetPathFromParameters(ctx, op).value
    ensures r.value.1 == ParseResponseRender(r.ctx.interfaceCache.entries, responses, op.responses)
  {
    var path := GetPathFromParameters(ctx, op);
    PathAdvances(models, ctx, op);
    var parse := GetParseResponse(models, responses, path.ctx, op);
    TailStep(models, responses, ctx, path.ctx, parse.ctx, op);
    Emitted((path.value, parse.value), parse.ctx)
  }

  lemma PathAdvances(models: seq<ModelDecl>, ctx: ClientContext, op: Operation)
    requires ContextOk(models, ctx)
    ensures Advances(models, ctx, GetPathFromParameters(ctx, op).ctx)
  {
    AddImportAdvances(models, ctx);
  }

  /** The path and then the parse code: the state advances, the response cache is
      untouched, and the three imports are those the operation needs. */
  lemma TailStep(models: seq<ModelDecl>, responses: seq<Response>, ctx: ClientContext, c1: ClientContext, c2: ClientContext, op: Operation)
    requires IdsBelow(op.responses, |responses|)
    requires c1 == GetPathFromParameters(ctx, op).ctx && Advances(models, ctx, c1)
    requires Advances(models, c1, c2) && c2.responseCache == c1.responseCache
    requires c2.extraCorePipelineImports ==
      if HasDefault(responses, op.responses) then c1.extraCorePipelineImports else Add(c1.extraCorePipelineImports, "RestError")
    requires c2.extraClientLibImports ==
      if AnyHeaders(responses, op.responses) then Add(c1.extraClientLibImports, "getHeader") else c1.extraClientLibImports
    ensures Advances(models, ctx, c2) && c2.responseCache == ctx.responseCache
    ensures OperationImports(responses, ctx, c2, op)
  {
    AdvancesTrans(models, ctx, c1, c2);
    PathImport(ctx, op);
  }

  /** `createOperation`. It fails exactly when a query parameter cannot be written;
      otherwise the method text is the template filled with the pieces as they read
      off the final state, the state has only grown, it has the imports the method
      needs, and it holds the interfaces of the operation's non-error responses. */
  method CreateOperation(models: seq<ModelDecl>, responses: seq<Response>, ctx: ClientContext, op: Operation) returns (r: Result<Emitted<string>, string>)
    requires ArenaOk(models) && ResponsesOk(models, responses) && ContextOk(models, ctx) && OperationOk(models, responses, op)
    ensures r.Failure? <==> HasUnsupportedQuery(op)
    ensures r.Failure? ==> r.error == GetQueryParamsFromParameters(op).error
    ensures r.Success? ==>
      Advances(models, ctx, r.value.ctx) &&
      OperationImports(responses, ctx, r.value.ctx, op) &&
      r.value.ctx.responseCache.entries.Keys ==
        ctx.responseCache.entries.Keys + (set k | k in NonErrorIds(responses, op.responses)) &&
      Rendered(responses, r.value.ctx, op) &&
      r.value.value == MethodText(responses, r.value.ctx, op)
  {
    var head := OperationHead(models, responses, ctx, op);
    var query := GetQueryParamsFromParameters(op);
    if query.Failure? {
      return Failure(query.error);
    }
    var tail := OperationTail(models, responses, head.ctx, op);
    var text := OperationText(op.name, head.value.0, head.value.1, tail.value.0, query.value,
                              RequestMethod(op.verb), GetHeadersFromParameters(op), GetBody(op), tail.value.1);
    AdvancesTrans(models, ctx, head.ctx, tail.ctx);
    OperationImportsFrom(responses, ctx, head.ctx, tail.ctx, op);
    ParamsRenderMono(head.ctx.interfaceCache.entries, tail.ctx.interfaceCache.entries, op.parameters);
    PathValue(head.ctx, tail.ctx, op);
    r := Success(Emitted(text, tail.ctx));
  }

  /** The path expression does not depend on the state. */
  lemma PathValue(c1: ClientContext, c2: ClientContext, op: Operation)
    ensures GetPathFromParameters(c1, op).value == GetPathFromParameters(c2, op).value
  {
  }

  lemma OperationImportsFrom(responses: seq<Response>, c0: ClientContext, c1: ClientContext, c2: ClientContext, op: Operation)
    requires IdsBelow(op.responses, |responses|)
    requires c1.extraCorePipelineImports == c0.extraCorePipelineImports
    requires c1.extraClientLibImports == c0.extraClientLibImports
    requires OperationImports(responses, c1, c2, op)
    ensures OperationImports(responses, c0, c2, op)
  {
  }
}
