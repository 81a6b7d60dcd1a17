/** The code for an operation's responses (packages/emitter/src/generators/response.ts):
    the response interfaces named after the operation, and the handlers that test the
    status code, parse the body and headers, and return or throw the result. */
module ResponseCode {
  import opened Wrappers
  import opened Strings
  import opened Ordered
  import opened Ir
  import opened Identifiers
  import opened Cache
  import opened Interfaces

  /** Every property type of every response points into the model arena. */
  predicate ResponsesOk(models: seq<ModelDecl>, responses: seq<Response>) {
    forall r, j :: 0 <= r < |responses| && 0 <= j < |responses[r].properties| ==>
      RefsBelow(responses[r].properties[j].1.typ, |models|)
  }

  lemma ResponseProps(models: seq<ModelDecl>, responses: seq<Response>, rid: ResponseId)
    requires ResponsesOk(models, responses) && rid < |responses|
    ensures PropsBelow(Values(responses[rid].properties), |models|)
  {
  }

  /** `notErrorResponse`. */
  predicate NotErrorResponse(response: Response) {
    !response.isError
  }

  // ---------------------------------------------------------------------------
  // Response interfaces

  /** A body property whose type is a model: its place is taken by the model's own
      properties. */
  predicate IsBodyModel(p: ModelProperty) {
    p.location == Some(BodyProp) && p.typ.ModelType?
  }

  /** What one property becomes: a body model's own properties, or the property itself. */
  function FlattenOne(models: seq<ModelDecl>, p: ModelProperty): seq<ModelProperty>
    requires RefsBelow(p.typ, |models|)
  {
    if IsBodyModel(p) then Values(models[p.typ.id].properties) else [p]
  }

  /** The `flatMap` of `responseToTypeScript`: one level of body models is replaced by
      their properties; the properties of those models are taken as they are. */
  function FlattenBody(models: seq<ModelDecl>, props: seq<ModelProperty>): (r: seq<ModelProperty>)
    requires PropsBelow(props, |models|)
    ensures forall p :: p in props && !IsBodyModel(p) ==> p in r
    ensures forall q :: q in r ==>
      ((q in props && !IsBodyModel(q)) ||
       exists i :: 0 <= i < |props| && IsBodyModel(props[i]) && q in Values(models[props[i].typ.id].properties))
  {
    if props == [] then []
    else
      var p := props[0];
      var rest := FlattenBody(models, props[1..]);
      assert forall q :: q in props ==> q == p || q in props[1..];
      assert forall i :: 1 <= i < |props| ==> props[i] == props[1..][i - 1];
      FlattenOne(models, p) + rest
  }

  lemma FlattenCons(models: seq<ModelDecl>, props: seq<ModelProperty>)
    requires PropsBelow(props, |models|) && props != []
    ensures FlattenBody(models, props) == FlattenOne(models, props[0]) + FlattenBody(models, props[1..])
  {
  }

  lemma {:induction false} FlattenBodyAppend(models: seq<ModelDecl>, a: seq<ModelProperty>, b: seq<ModelProperty>)
    requires PropsBelow(a, |models|) && PropsBelow(b, |models|)
    ensures PropsBelow(a + b, |models|)
    ensures FlattenBody(models, a + b) == FlattenBody(models, a) + FlattenBody(models, b)
  {
    if a == [] {
      assert a + b == b;
    } else {
      var ab := a + b;
      assert ab[0] == a[0] && ab[1..] == a[1..] + b;
      FlattenBodyAppend(models, a[1..], b);
      FlattenCons(models, ab);
      FlattenCons(models, a);
      AppendAssoc(FlattenOne(models, a[0]), FlattenBody(models, a[1..]), FlattenBody(models, b));
    }
  }

  /** The flattened properties still point into the arena. */
  lemma {:induction false} FlattenBodyBelow(models: seq<ModelDecl>, props: seq<ModelProperty>)
    requires ArenaOk(models) && PropsBelow(props, |models|)
    ensures PropsBelow(FlattenBody(models, props), |models|)
  {
    if props != [] {
      FlattenBodyBelow(models, props[1..]);
      if IsBodyModel(props[0]) {
        ArenaProps(models, props[0].typ.id);
      }
    }
  }

  /** Flattening goes one level deep: a body model's properties are taken as they are,
      so a body model among them stays a property. */
  lemma FlattenOneLevel(models: seq<ModelDecl>, outer: ModelProperty)
    requires RefsBelow(outer.typ, |models|) && IsBodyModel(outer)
    ensures PropsBelow([outer], |models|)
    ensures FlattenBody(models, [outer]) == Values(models[outer.typ.id].properties)
    ensures forall q :: q in Values(models[outer.typ.id].properties) && IsBodyModel(q) ==> q in FlattenBody(models, [outer])
  {
    assert PropsBelow([outer], |models|);
    FlattenCons(models, [outer]);
    assert [outer][1..] == [];
  }

  /** `responseToTypeScript`. A hit returns the stored name and renders nothing. A miss
      names the interface `<operation>Response`, stores the entry before rendering the
      flattened properties, and then stores the finished text. */
  function ResponseToTypeScript(models: seq<ModelDecl>, responses: seq<Response>, ctx: ClientContext, rid: ResponseId, operationName: string): (r: Emitted<string>)
    requires ArenaOk(models) && ResponsesOk(models, responses) && ContextOk(models, ctx) && rid < |responses|
    ensures Advances(models, ctx, r.ctx)
    ensures r.ctx.extraCorePipelineImports == ctx.extraCorePipelineImports
    ensures r.ctx.extraClientLibImports == ctx.extraClientLibImports
    ensures r.ctx.responseCache.entries.Keys == ctx.responseCache.entries.Keys + {rid}
    ensures r.value == r.ctx.responseCache.entries[rid].name
    ensures rid in ctx.responseCache.entries ==> r == Emitted(ctx.responseCache.entries[rid].name, ctx)
    ensures rid !in ctx.responseCache.entries ==>
      var flat := FlattenBody(models, Values(responses[rid].properties));
      r.value == operationName + "Response" &&
      PropsCached(r.ctx.interfaceCache.entries, flat) &&
      r.ctx.responseCache.entries[rid] ==
        CachedInterface(r.value, InterfaceText(r.value, false, PropsRender(r.ctx.interfaceCache.entries, flat)), false)
  {
    if rid in ctx.responseCache.entries then
      Emitted(ctx.responseCache.entries[rid].name, ctx)
    else
      ResponseMiss(models, responses, ctx, rid, operationName)
  }

  /** The miss of `responseToTypeScript`. */
  function ResponseMiss(models: seq<ModelDecl>, responses: seq<Response>, ctx: ClientContext, rid: ResponseId, operationName: string): (r: Emitted<string>)
    requires ArenaOk(models) && ResponsesOk(models, responses) && ContextOk(models, ctx) && rid < |responses|
    requires rid !in ctx.responseCache.entries
    ensures Advances(models, ctx, r.ctx)
    ensures r.ctx.extraCorePipelineImports == ctx.extraCorePipelineImports
    ensures r.ctx.extraClientLibImports == ctx.extraClientLibImports
    ensures r.ctx.responseCache.entries.Keys == ctx.responseCache.entries.Keys + {rid}
    ensures var flat := FlattenBody(models, Values(responses[rid].properties));
      r.value == operationName + "Response" && r.value == r.ctx.responseCache.entries[rid].name &&
      PropsCached(r.ctx.interfaceCache.entries, flat) &&
      r.ctx.responseCache.entries[rid] ==
        CachedInterface(r.value, InterfaceText(r.value, false, PropsRender(r.ctx.interfaceCache.entries, flat)), false)
  {
    var name := operationName + "Response";
    var c1 := ctx.(responseCache := Put(ctx.responseCache, rid, CachedInterface(name, "", false)));
    ResponseStart(models, responses, ctx, rid, operationName);
    var props := PropertiesToTypeScript(models, c1, FlattenBody(models, Values(responses[rid].properties)));
    var text := InterfaceText(name, false, props.value);
    var c2 := props.ctx.(responseCache := Put(props.ctx.responseCache, rid, CachedInterface(name, text, false)));
    ExtendsAdvances(models, c1, props.ctx);
    ResponseMissDone(models, ctx, c1, props.ctx, c2, rid, CachedInterface(name, "", false), CachedInterface(name, text, false));
    Emitted(name, c2)
  }

  /** Before the walk: the placeholder entry is a response entry, the state holding it
      is consistent, and the flattened properties refer to known models. */
  lemma ResponseStart(models: seq<ModelDecl>, responses: seq<Response>, ctx: ClientContext, rid: ResponseId, operationName: string)
    requires ArenaOk(models) && ResponsesOk(models, responses) && ContextOk(models, ctx) && rid < |responses|
    requires rid !in ctx.responseCache.entries
    ensures EndsWith(operationName + "Response", "Response")
    ensures ContextOk(models, ctx.(responseCache := Put(ctx.responseCache, rid, CachedInterface(operationName + "Response", "", false))))
    ensures PropsBelow(FlattenBody(models, Values(responses[rid].properties)), |models|)
  {
    var name := operationName + "Response";
    assert name[|name| - |"Response"|..] == "Response";
    PutResponseOk(models, ctx, rid, CachedInterface(name, "", false));
    ResponseProps(models, responses, rid);
    FlattenBodyBelow(models, Values(responses[rid].properties));
  }

  lemma ResponseMissDone(models: seq<ModelDecl>, ctx: ClientContext, c1: ClientContext, cw: ClientContext, c2: ClientContext, rid: ResponseId, e0: CachedInterface, e: CachedInterface)
    requires ContextOk(models, ctx) && rid !in ctx.responseCache.entries
    requires ResponseEntry(e0) && ResponseEntry(e) && e.generatedText != []
    requires c1 == ctx.(responseCache := Put(ctx.responseCache, rid, e0))
    requires Extends(models, c1, cw)
    requires c2 == cw.(responseCache := Put(cw.responseCache, rid, e))
    ensures Advances(models, ctx, c2)
    ensures c2.extraCorePipelineImports == ctx.extraCorePipelineImports
    ensures c2.extraClientLibImports == ctx.extraClientLibImports
    ensures c2.responseCache.entries.Keys == ctx.responseCache.entries.Keys + {rid}
    ensures c2.responseCache.entries[rid] == e
  {
    assert c2.responseCache.order == ctx.responseCache.order + [rid];
    PutResponseOk(models, cw, rid, e);
    CachedGrowsTrans(ctx.interfaceCache, c1.interfaceCache, cw.interfaceCache);
  }

  /** A response shared by two operations keeps the name of the first one rendered. */
  lemma SharedResponseName(models: seq<ModelDecl>, responses: seq<Response>, ctx: ClientContext, rid: ResponseId, first: string, second: string)
    requires ArenaOk(models) && ResponsesOk(models, responses) && ContextOk(models, ctx) && rid < |responses|
    requires rid !in ctx.responseCache.entries
    ensures var a := ResponseToTypeScript(models, responses, ctx, rid, first);
      ResponseToTypeScript(models, responses, a.ctx, rid, second) == Emitted(first + "Response", a.ctx)
  {
  }

  // ---------------------------------------------------------------------------
  // Handlers

  /** The properties with (`header` true) or without a header location, in order. */
  function WithHeader(props: seq<ModelProperty>, header: bool): (r: seq<ModelProperty>)
    ensures |r| <= |props|
    ensures forall i :: 0 <= i < |r| ==> r[i] in props && (r[i].location == Some(HeaderProp)) == header
    ensures forall p :: p in props && (p.location == Some(HeaderProp)) == header ==> p in r
  {
    if props == [] then []
    else
      var rest := WithHeader(props[1..], header);
      if (props[0].location == Some(HeaderProp)) == header then [props[0]] + rest else rest
  }

  /** The first body-located property (`find`). */
  function FirstBodyLocated(props: seq<ModelProperty>): (r: Option<ModelProperty>)
    ensures r.None? <==> forall p :: p in props ==> p.location != Some(BodyProp)
    ensures r.Some? ==>
      exists i :: (0 <= i < |props| && props[i] == r.value &&
        r.value.location == Some(BodyProp) && forall j :: 0 <= j < i ==> props[j].location != Some(BodyProp))
  {
    if props == [] then None
    else if props[0].location == Some(BodyProp) then Some(props[0])
    else
      var rest := FirstBodyLocated(props[1..]);
      assert forall p :: p in props ==> p == props[0] || p in props[1..];
      if rest.Some? then
        var i :| 0 <= i < |props[1..]| && props[1..][i] == rest.value &&
          rest.value.location == Some(BodyProp) && forall j :: 0 <= j < i ==> props[1..][j].location != Some(BodyProp);
        assert props[i + 1] == rest.value;
        rest
      else rest
  }

  /** The property the handler parses as the body: the first body-located property,
      or else the only property without a header location. */
  function BodyProperty(props: seq<ModelProperty>): (r: Option<ModelProperty>)
    ensures r.Some? ==> r.value in props && r.value.location != Some(HeaderProp)
    ensures FirstBodyLocated(props).Some? ==> r == FirstBodyLocated(props)
    ensures FirstBodyLocated(props).None? ==> (r.Some? <==> |WithHeader(props, false)| == 1)
  {
    var nonHeaders := WithHeader(props, false);
    match FirstBodyLocated(props)
    case Some(p) => Some(p)
    case None => if |nonHeaders| == 1 then Some(nonHeaders[0]) else None
  }

  /** A response with neither a body nor headers: its handler is a bare `return;`. */
  predicate IsVoid(resp: Response) {
    var props := Values(resp.properties);
    BodyProperty(props).None? && WithHeader(props, true) == []
  }

  function Terminal(isError: bool): string {
    if isError then "throw result;" else "return result;"
  }

  function HeaderEntry(p: ModelProperty): string {
    QuoteNameIfNeeded(p.name) + ": getHeader(response, \"" + p.serializedName.GetOr("undefined") + "\")"
  }

  function HeaderEntries(props: seq<ModelProperty>): (r: seq<string>)
    ensures |r| == |props| && forall i :: 0 <= i < |props| ==> r[i] == HeaderEntry(props[i])
  {
    seq(|props|, i requires 0 <= i < |props| => HeaderEntry(props[i]))
  }

  /** The variable the body is parsed into: `parsedResponse` when a header object
      follows and spreads it, `result` otherwise. */
  function ParsedId(hasHeaders: bool): string {
    if hasHeaders then "parsedResponse" else "result"
  }

  /** The start of a statement declaring `id`. */
  function Declaration(id: string): string {
    "const " + id
  }

  /** The rest of the body statement: the parse and the cast to `t`. */
  function ParseAs(t: string): string {
    " = tryParseResponse(response) as " + t + ";"
  }

  /** The statement parsing the body as `t`; empty when there is no body. */
  function ParseBodyText(body: Option<ModelProperty>, headers: seq<ModelProperty>, t: string): (r: string)
    ensures r == "" <==> body.None?
    ensures body.Some? ==> r == Declaration(ParsedId(headers != [])) + ParseAs(t)
  {
    if body.Some? then Declaration(ParsedId(headers != [])) + ParseAs(t) else ""
  }

  /** The opening of the header object, which declares `result`. */
  function ObjectOpen(): string {
    Declaration("result") + " = {\n"
  }

  /** The spread of the parsed body into the header object. */
  const Spread: string := "...parsedResponse,"

  /** The header object's first line: it spreads the parsed body when there is one. */
  function HeaderObjectHead(hasBody: bool): string {
    ObjectOpen() + (if hasBody then Spread else "") + "\n"
  }

  /** The statement building `result` from the parsed body and one `getHeader` entry
      per header property; empty when there are no headers. */
  function ParseHeadersText(body: Option<ModelProperty>, headers: seq<ModelProperty>): (r: string)
    ensures r == "" <==> headers == []
    ensures headers != [] ==> r == HeaderObjectHead(body.Some?) + Join(HeaderEntries(headers), ",") + "\n};"
  {
    if headers != [] then HeaderObjectHead(body.Some?) + Join(HeaderEntries(headers), ",") + "\n};"
    else ""
  }

  /** The parsing code: the body parse, the header object, and the final `return` or
      `throw`, each on its own line. */
  function ParseCode(resp: Response, bodyTypeText: string): (r: string)
    ensures var props := Values(resp.properties);
      var body, headers := BodyProperty(props), WithHeader(props, true);
      r == "\n" + ParseBodyText(body, headers, bodyTypeText) + "\n" + ParseHeadersText(body, headers) + "\n" +
        Terminal(resp.isError) + "\n"
    ensures |r| > 0 && r[0] == '\n' && EndsWith(r, Terminal(resp.isError) + "\n")
  {
    var props := Values(resp.properties);
    var headers := WithHeader(props, true);
    var body := BodyProperty(props);
    var prefix := "\n" + ParseBodyText(body, headers, bodyTypeText) + "\n" + ParseHeadersText(body, headers) + "\n";
    ConcatStartsEnds(prefix, Terminal(resp.isError) + "\n");
    var r := prefix + (Terminal(resp.isError) + "\n");
    assert r[0] == prefix[0];
    r
  }

  /** The body statement declares `parsedResponse` exactly when the response also has
      headers, and `result` exactly when it has none. */
  lemma ParseBodyScoping(body: Option<ModelProperty>, headers: seq<ModelProperty>, t: string)
    ensures var pb := ParseBodyText(body, headers, t);
      (StartsWith(pb, Declaration("parsedResponse")) <==> body.Some? && headers != []) &&
      (StartsWith(pb, Declaration("result")) <==> body.Some? && headers == [])
  {
    var pb := ParseBodyText(body, headers, t);
    if body.Some? {
      var d := Declaration(ParsedId(headers != []));
      ConcatStartsEnds(d, ParseAs(t));
      if headers != [] {
        PrefixClash(pb, d, Declaration("result"), 6);
      } else {
        PrefixClash(pb, d, Declaration("parsedResponse"), 6);
      }
    }
  }

  /** The header object declares `result` whenever there are headers, and spreads the
      parsed body exactly when there is also a body. */
  lemma ParseHeadersScoping(body: Option<ModelProperty>, headers: seq<ModelProperty>)
    ensures var ph := ParseHeadersText(body, headers);
      (StartsWith(ph, ObjectOpen() + Spread) <==> body.Some? && headers != []) &&
      (StartsWith(ph, Declaration("result")) <==> headers != [])
  {
    var ph := ParseHeadersText(body, headers);
    if headers != [] {
      var h := HeaderObjectHead(body.Some?);
      var rest := Join(HeaderEntries(headers), ",") + "\n};";
      ConcatStartsEnds(h + Join(HeaderEntries(headers), ","), "\n};");
      ConcatStartsEnds(h, Join(HeaderEntries(headers), ","));
      StartsWithTrans(ph, h + Join(HeaderEntries(headers), ","), h);
      var mid := if body.Some? then Spread else "";
      StartsWithPieces(ObjectOpen(), mid, "\n");
      StartsWithTrans(ph, h, ObjectOpen());
      ConcatStartsEnds(Declaration("result"), " = {\n");
      StartsWithTrans(ph, ObjectOpen(), Declaration("result"));
      if body.Some? {
        StartsWithTrans(ph, h, ObjectOpen() + Spread);
      } else {
        assert h == ObjectOpen() + "\n";
        ConcatStartsEnds(ObjectOpen(), "\n");
        PrefixClash(ph, h, ObjectOpen() + Spread, |ObjectOpen()|);
      }
    }
  }

  /** The generated parsing code is well scoped: `parsedResponse` is declared exactly
      when the header object spreads it, and unless the response is void, exactly one
      of the two statements declares `result`. */
  lemma ParseCodeScoping(body: Option<ModelProperty>, headers: seq<ModelProperty>, t: string)
    ensures var pb, ph := ParseBodyText(body, headers, t), ParseHeadersText(body, headers);
      StartsWith(pb, Declaration("parsedResponse")) <==> StartsWith(ph, ObjectOpen() + Spread)
    ensures var pb, ph := ParseBodyText(body, headers, t), ParseHeadersText(body, headers);
      (body.Some? || headers != []) ==> (StartsWith(pb, Declaration("result")) != StartsWith(ph, Declaration("result")))
  {
    ParseBodyScoping(body, headers, t);
    ParseHeadersScoping(body, headers);
  }

  /** Each header property contributes one `getHeader` entry, in order, under its own
      (quoted if needed) name and serialized header name. */
  lemma HeaderEntriesPerHeader(headers: seq<ModelProperty>, i: nat)
    requires i < |headers|
    ensures |HeaderEntries(headers)| == |headers|
    ensures StartsWith(HeaderEntries(headers)[i], QuoteNameIfNeeded(headers[i].name) + ": getHeader(response, ")
    ensures Unquote(QuoteNameIfNeeded(headers[i].name)) == headers[i].name
  {
    var e := HeaderEntries(headers)[i];
    ConcatStartsEnds(QuoteNameIfNeeded(headers[i].name) + ": getHeader(response, ",
      "\"" + headers[i].serializedName.GetOr("undefined") + "\")");
    UnquoteQuote(headers[i].name);
  }

  /** The status test opening a handler: `===` against a single code, `includes` on a
      list of several. */
  function StatusTest(codes: seq<string>): string
    requires codes != []
  {
    if |codes| > 1 then "if ([" + Join(codes, ",") + "].includes(response.status)) {"
    else "if (response.status === " + codes[0] + ") {"
  }

  /** The code wrapped in the status test. */
  function Guarded(head: string, code: string): string {
    head + "\n" + code + "\n }"
  }

  lemma GuardedShape(head: string, code: string, t: string)
    requires |head| > 0 && EndsWith(code, t)
    ensures var r := Guarded(head, code);
      |r| > 0 && r[0] == head[0] && StartsWith(r, head) && EndsWith(r, t + "\n }")
  {
    var r := Guarded(head, code);
    ConcatStartsEnds(head, "\n" + code + "\n }");
    assert head + ("\n" + code + "\n }") == r;
    EndsWithConcat(head + "\n", code, t, "\n }");
  }

  /** `getParseResponseForStatus`, given the text of the body type. */
  function HandlerText(resp: Response, bodyTypeText: string): (r: string)
    ensures r == "return;" <==> IsVoid(resp)
    ensures !IsVoid(resp) && resp.statusCodes == [] ==> r == ParseCode(resp, bodyTypeText)
    ensures !IsVoid(resp) && |resp.statusCodes| == 1 ==>
      StartsWith(r, "if (response.status === " + resp.statusCodes[0] + ") {")
    ensures !IsVoid(resp) && |resp.statusCodes| > 1 ==>
      StartsWith(r, "if ([" + Join(resp.statusCodes, ",") + "].includes(response.status)) {")
    ensures !IsVoid(resp) && resp.statusCodes != [] ==> EndsWith(r, Terminal(resp.isError) + "\n" + "\n }")
    ensures !IsVoid(resp) && resp.statusCodes != [] ==>
      r == StatusTest(resp.statusCodes) + "\n" + ParseCode(resp, bodyTypeText) + "\n }"
  {
    if IsVoid(resp) then "return;"
    else
      var code := ParseCode(resp, bodyTypeText);
      if resp.statusCodes == [] then
        NotBareReturn(code);
        code
      else
        // the status test: `===` against a single code, `includes` on a list of several
        var head := StatusTest(resp.statusCodes);
        GuardedShape(head, code, Terminal(resp.isError) + "\n");
        var r := Guarded(head, code);
        NotBareReturn(r);
        r
  }

  lemma NotBareReturn(r: string)
    requires |r| > 0 && r[0] != 'r'
    ensures r != "return;"
  {
  }

  /** Every body type a handler renders has its models cached. */
  predicate BodyCached(entries: map<nat, CachedInterface>, resp: Response) {
    var body := BodyProperty(Values(resp.properties));
    body.Some? ==> AllCached(entries, body.value.typ)
  }

  /** The body type's text read off the cache; empty when there is no body. */
  function BodyTypeText(entries: map<nat, CachedInterface>, resp: Response): string
    requires BodyCached(entries, resp)
  {
    var body := BodyProperty(Values(resp.properties));
    if body.Some? then CachedRender(entries, body.value.typ) else ""
  }

  lemma BodyTypeTextMono(e1: map<nat, CachedInterface>, e2: map<nat, CachedInterface>, resp: Response)
    requires EntriesGrow(e1, e2) && BodyCached(e1, resp)
    ensures BodyCached(e2, resp) && BodyTypeText(e2, resp) == BodyTypeText(e1, resp)
  {
    var body := BodyProperty(Values(resp.properties));
    if body.Some? {
      CachedRenderMono(e1, e2, body.value.typ);
    }
  }

  /** The handler adds `getHeader` exactly when the response has header properties. */
  function WithGetHeader(imports: seq<string>, resp: Response): seq<string> {
    if WithHeader(Values(resp.properties), true) != [] then Add(imports, "getHeader") else imports
  }

  /** `getParseResponseForStatus`: renders the body type, if any, and imports
      `getHeader` when headers are read. */
  function GetParseResponseForStatus(models: seq<ModelDecl>, ctx: ClientContext, resp: Response): (r: Emitted<string>)
    requires ArenaOk(models) && ContextOk(models, ctx) && PropsBelow(Values(resp.properties), |models|)
    ensures Advances(models, ctx, r.ctx)
    ensures r.ctx.responseCache == ctx.responseCache
    ensures r.ctx.extraCorePipelineImports == ctx.extraCorePipelineImports
    ensures r.ctx.extraClientLibImports == WithGetHeader(ctx.extraClientLibImports, resp)
    ensures BodyCached(r.ctx.interfaceCache.entries, resp)
    ensures r.value == HandlerText(resp, BodyTypeText(r.ctx.interfaceCache.entries, resp))
  {
    var props := Values(resp.properties);
    if IsVoid(resp) then Emitted("return;", ctx)
    else
      var body := BodyProperty(props);
      var x :=
        if body.Some? then RestTypeToTypeScript(models, ctx, body.value.typ)
        else Emitted("", ctx);
      ExtendsAdvances(models, ctx, x.ctx);
      var c2 := if WithHeader(props, true) != [] then AddClientLibImport(x.ctx, "getHeader") else x.ctx;
      AddImportAdvances(models, x.ctx);
      AdvancesTrans(models, ctx, x.ctx, c2);
      Emitted(HandlerText(resp, x.value), c2)
  }

  predicate IdsBelow(ids: seq<ResponseId>, n: nat) {
    forall i :: 0 <= i < |ids| ==> ids[i] < n
  }

  predicate HandlersCached(entries: map<nat, CachedInterface>, responses: seq<Response>, ids: seq<ResponseId>)
    requires IdsBelow(ids, |responses|)
  {
    forall i :: 0 <= i < |ids| ==> BodyCached(entries, responses[ids[i]])
  }

  /** The handlers of the responses `ids`, in order, read off the cache. */
  function HandlersRender(entries: map<nat, CachedInterface>, responses: seq<Response>, ids: seq<ResponseId>): (r: seq<string>)
    requires IdsBelow(ids, |responses|) && HandlersCached(entries, responses, ids)
    ensures |r| == |ids|
    ensures forall i :: 0 <= i < |ids| ==> r[i] == HandlerText(responses[ids[i]], BodyTypeText(entries, responses[ids[i]]))
  {
    seq(|ids|, i requires 0 <= i < |ids| && IdsBelow(ids, |responses|) && HandlersCached(entries, responses, ids) =>
      HandlerText(responses[ids[i]], BodyTypeText(entries, responses[ids[i]])))
  }

  lemma HandlersRenderMono(e1: map<nat, CachedInterface>, e2: map<nat, CachedInterface>, responses: seq<Response>, ids: seq<ResponseId>)
    requires EntriesGrow(e1, e2) && IdsBelow(ids, |responses|) && HandlersCached(e1, responses, ids)
    ensures HandlersCached(e2, responses, ids) && HandlersRender(e2, responses, ids) == HandlersRender(e1, responses, ids)
  {
    forall i | 0 <= i < |ids|
      ensures BodyCached(e2, responses[ids[i]]) && BodyTypeText(e2, responses[ids[i]]) == BodyTypeText(e1, responses[ids[i]])
    {
      BodyTypeTextMono(e1, e2, responses[ids[i]]);
    }
  }

  /** Some response among `ids` has header properties. */
  predicate AnyHeaders(responses: seq<Response>, ids: seq<ResponseId>)
    requires IdsBelow(ids, |responses|)
  {
    exists i :: 0 <= i < |ids| && WithHeader(Values(responses[ids[i]].properties), true) != []
  }

  /** The handlers of the responses `ids`, in order. */
  function HandlersToTypeScript(models: seq<ModelDecl>, responses: seq<Response>, ctx: ClientContext, ids: seq<ResponseId>): (r: Emitted<seq<string>>)
    requires ArenaOk(models) && ResponsesOk(models, responses) && ContextOk(models, ctx) && IdsBelow(ids, |responses|)
    ensures Advances(models, ctx, r.ctx)
    ensures r.ctx.responseCache == ctx.responseCache
    ensures r.ctx.extraCorePipelineImports == ctx.extraCorePipelineImports
    ensures r.ctx.extraClientLibImports ==
      if AnyHeaders(responses, ids) then Add(ctx.extraClientLibImports, "getHeader") else ctx.extraClientLibImports
    ensures HandlersCached(r.ctx.interfaceCache.entries, responses, ids)
    ensures r.value == HandlersRender(r.ctx.interfaceCache.entries, responses, ids)
    decreases |ids|
  {
    if ids == [] then
      AdvancesRefl(models, ctx);
      Emitted([], ctx)
    else
      ResponseProps(models, responses, ids[0]);
      var x := GetParseResponseForStatus(models, ctx, responses[ids[0]]);
      var rest := HandlersToTypeScript(models, responses, x.ctx, ids[1..]);
      AdvancesTrans(models, ctx, x.ctx, rest.ctx);
      HandlersStep(models, responses, ctx, x.ctx, rest.ctx, ids, x.value, rest.value);
      Emitted([x.value] + rest.value, rest.ctx)
  }

  lemma HandlersStep(models: seq<ModelDecl>, responses: seq<Response>, c0: ClientContext, c1: ClientContext, c2: ClientContext,
                     ids: seq<ResponseId>, v: string, rest: seq<string>)
    requires ids != [] && IdsBelow(ids, |responses|)
    requires EntriesGrow(c1.interfaceCache.entries, c2.interfaceCache.entries)
    requires BodyCached(c1.interfaceCache.entries, responses[ids[0]])
    requires v == HandlerText(responses[ids[0]], BodyTypeText(c1.interfaceCache.entries, responses[ids[0]]))
    requires HandlersCached(c2.interfaceCache.entries, responses, ids[1..])
    requires rest == HandlersRender(c2.interfaceCache.entries, responses, ids[1..])
    requires c1.extraClientLibImports == WithGetHeader(c0.extraClientLibImports, responses[ids[0]])
    requires c2.extraClientLibImports ==
      if AnyHeaders(responses, ids[1..]) then Add(c1.extraClientLibImports, "getHeader") else c1.extraClientLibImports
    ensures HandlersCached(c2.interfaceCache.entries, responses, ids)
    ensures [v] + rest == HandlersRender(c2.interfaceCache.entries, responses, ids)
    ensures c2.extraClientLibImports ==
      if AnyHeaders(responses, ids) then Add(c0.extraClientLibImports, "getHeader") else c0.extraClientLibImports
  {
    BodyTypeTextMono(c1.interfaceCache.entries, c2.interfaceCache.entries, responses[ids[0]]);
    HandlersRenderStep(c2.interfaceCache.entries, responses, ids, v, rest);
    AnyHeadersStep(responses, ids);
  }

  lemma HandlersRenderStep(e2: map<nat, CachedInterface>, responses: seq<Response>, ids: seq<ResponseId>, v: string, rest: seq<string>)
    requires ids != [] && IdsBelow(ids, |responses|)
    requires BodyCached(e2, responses[ids[0]])
    requires v == HandlerText(responses[ids[0]], BodyTypeText(e2, responses[ids[0]]))
    requires HandlersCached(e2, responses, ids[1..])
    requires rest == HandlersRender(e2, responses, ids[1..])
    ensures HandlersCached(e2, responses, ids)
    ensures [v] + rest == HandlersRender(e2, responses, ids)
  {
    forall i | 1 <= i < |ids|
      ensures BodyCached(e2, responses[ids[i]])
    {
      assert ids[i] == ids[1..][i - 1];
    }
    var r := HandlersRender(e2, responses, ids);
    var s := [v] + rest;
    forall i | 0 <= i < |ids|
      ensures r[i] == s[i]
    {
      if i > 0 {
        assert ids[i] == ids[1..][i - 1];
        assert s[i] == rest[i - 1];
      }
    }
  }

  lemma AnyHeadersStep(responses: seq<Response>, ids: seq<ResponseId>)
    requires ids != [] && IdsBelow(ids, |responses|)
    ensures AnyHeaders(responses, ids) <==>
      WithHeader(Values(responses[ids[0]].properties), true) != [] || AnyHeaders(responses, ids[1..])
  {
    assert forall i :: 1 <= i < |ids| ==> ids[i] == ids[1..][i - 1];
  }

  /** Some response of the operation has no status codes: the default handler. */
  predicate HasDefault(responses: seq<Response>, ids: seq<ResponseId>)
    requires IdsBelow(ids, |responses|)
  {
    exists i :: 0 <= i < |ids| && responses[ids[i]].statusCodes == []
  }

  /** The fallback for an unknown status code. As written it ends with a `}` after the
      throw statement, which closes the method body one brace early. */
  const UnknownResponseThrow: string := "throw new RestError(\"Unknown response code\", { request, response});}"

  /** The fallback's throw statement is followed by a closing brace. */
  lemma FallbackClosesBlock()
    ensures |UnknownResponseThrow| >= 2
    ensures UnknownResponseThrow[|UnknownResponseThrow| - 2] == ';'
    ensures UnknownResponseThrow[|UnknownResponseThrow| - 1] == '}'
  {
  }

  /** The parse code read off the cache: the handlers one per line, then the fallback
      throw unless some response has no status codes. */
  function ParseResponseRender(entries: map<nat, CachedInterface>, responses: seq<Response>, ids: seq<ResponseId>): string
    requires IdsBelow(ids, |responses|) && HandlersCached(entries, responses, ids)
  {
    var defaultHandler := if HasDefault(responses, ids) then "" else UnknownResponseThrow;
    Join(HandlersRender(entries, responses, ids), "\n") + "\n\n" + defaultHandler + " \n"
  }

  /** `getParseResponse`. `RestError` is imported and the fallback throw appended
      exactly when no response of the operation lacks status codes. */
  function GetParseResponse(models: seq<ModelDecl>, responses: seq<Response>, ctx: ClientContext, op: Operation): (r: Emitted<string>)
    requires ArenaOk(models) && ResponsesOk(models, responses) && ContextOk(models, ctx) && IdsBelow(op.responses, |responses|)
    ensures Advances(models, ctx, r.ctx)
    ensures r.ctx.responseCache == ctx.responseCache
    ensures r.ctx.extraCorePipelineImports ==
      if HasDefault(responses, op.responses) then ctx.extraCorePipelineImports else Add(ctx.extraCorePipelineImports, "RestError")
    ensures r.ctx.extraClientLibImports ==
      if AnyHeaders(responses, op.responses) then Add(ctx.extraClientLibImports, "getHeader") else ctx.extraClientLibImports
    ensures EndsWith(r.value, UnknownResponseThrow + " \n") <==> !HasDefault(responses, op.responses)
    ensures HandlersCached(r.ctx.interfaceCache.entries, responses, op.responses)
    ensures r.value == ParseResponseRender(r.ctx.interfaceCache.entries, responses, op.responses)
  {
    var hasDefault := HasDefault(responses, op.responses);
    var c1 := if !hasDefault then AddCoreImport(ctx, "RestError") else ctx;
    AddImportAdvances(models, ctx);
    var defaultHandler := if hasDefault then "" else UnknownResponseThrow;
    var handlers := HandlersToTypeScript(models, responses, c1, op.responses);
    AdvancesTrans(models, ctx, c1, handlers.ctx);
    var r := Join(handlers.value, "\n") + "\n\n" + defaultHandler + " \n";
    FallbackEnd(Join(handlers.value, "\n"), hasDefault);
    Emitted(r, handlers.ctx)
  }

  lemma FallbackEnd(handling: string, hasDefault: bool)
    ensures var r := handling + "\n\n" + (if hasDefault then "" else UnknownResponseThrow) + " \n";
      EndsWith(r, UnknownResponseThrow + " \n") <==> !hasDefault
  {
    var r := handling + "\n\n" + (if hasDefault then "" else UnknownResponseThrow) + " \n";
    var t := UnknownResponseThrow + " \n";
    if hasDefault && |t| <= |r| {
      assert r[|r| - 3] == '\n' && t[|t| - 3] == '}';
      assert r[|r| - |t|..][|t| - 3] == r[|r| - 3];
    }
    if !hasDefault {
      assert r[|r| - |t|..] == t;
    }
  }
}
