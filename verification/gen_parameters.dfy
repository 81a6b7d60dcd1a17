/** The code an operation's parameters turn into (packages/emitter/src/generators/parameters.ts):
    the signature, the path expression, the header statements, the query object and
    the body assignment. Identifiers here come from a local `nameToIdentifier` that
    replaces bad characters with `_`; it is not the camel-casing function of
    packages/emitter/src/util/naming.ts. */
module ParameterCode {
  import opened Wrappers
  import opened Strings
  import opened Ordered
  import opened Ir
  import opened Identifiers
  import opened Cache
  import opened Interfaces

  // ---------------------------------------------------------------------------
  // Identifiers

  /** The alphabet `/[A-Za-z0-9_$]/`. */
  predicate IsIdentChar(c: char) {
    IsLetterOrDigit(c) || c == '_' || c == '$'
  }

  /** The local `nameToIdentifier`: every character outside the alphabet becomes `_`. */
  function Identifier(name: string): (r: string)
    ensures |r| == |name|
    ensures forall i :: 0 <= i < |name| ==> IsIdentChar(r[i])
    ensures forall i :: 0 <= i < |name| ==> (r[i] == name[i] <==> IsIdentChar(name[i]))
  {
    seq(|name|, i requires 0 <= i < |name| => if IsIdentChar(name[i]) then name[i] else '_')
  }

  /** A name over the alphabet is its own identifier, and only such a name is. */
  lemma IdentifierFixed(name: string)
    ensures Identifier(name) == name <==> forall i :: 0 <= i < |name| ==> IsIdentChar(name[i])
  {
    if forall i :: 0 <= i < |name| ==> IsIdentChar(name[i]) {
      assert Identifier(name) == name;
    }
  }

  /** Applying the function twice is applying it once. */
  lemma IdentifierIdempotent(name: string)
    ensures Identifier(Identifier(name)) == Identifier(name)
  {
    IdentifierFixed(Identifier(name));
  }

  /** Bad characters are replaced, not deleted, and separators are not camel-cased. */
  lemma TestIdentifier(a: string, b: string)
    requires a == "foo-bar.baz" && b == "x$1"
    ensures Identifier(a) == "foo_bar_baz" && Identifier(b) == "x$1"
  {
    assert !IsIdentChar('-') && !IsIdentChar('.');
    assert Identifier(a) == "foo_bar_baz";
    IdentifierFixed(b);
  }

  /** No identifier contains a double quote, so a quoted name is never an identifier. */
  lemma QuotedIsNoIdentifier(name: string, value: string)
    requires value == Identifier(name)
    ensures QuoteNameIfNeeded(name) == value <==> IsBare(name)
  {
    if IsBare(name) {
      IdentifierFixed(name);
    } else {
      var q := QuoteNameIfNeeded(name);
      assert q[0] == '"' && !IsIdentChar('"');
      if |value| > 0 {
        assert IsIdentChar(value[0]);
      }
    }
  }

  // ---------------------------------------------------------------------------
  // Parameters by location

  /** The parameters at one location, in order (`filter` on `location`). */
  function OfLocation(ps: seq<Parameter>, loc: ParameterLocation): (r: seq<Parameter>)
    ensures |r| <= |ps|
    ensures forall i :: 0 <= i < |r| ==> r[i] in ps && r[i].location == loc
    ensures forall p :: p in ps && p.location == loc ==> p in r
  {
    if ps == [] then []
    else
      var rest := OfLocation(ps[1..], loc);
      if ps[0].location == loc then [ps[0]] + rest else rest
  }

  lemma {:induction false} OfLocationAppend(a: seq<Parameter>, b: seq<Parameter>, loc: ParameterLocation)
    ensures OfLocation(a + b, loc) == OfLocation(a, loc) + OfLocation(b, loc)
  {
    if a == [] {
      assert a + b == b;
    } else {
      assert (a + b)[1..] == a[1..] + b;
      OfLocationAppend(a[1..], b, loc);
    }
  }

  /** Every parameter lands in exactly one of the four code sections. */
  lemma {:induction false} LocationsPartition(ps: seq<Parameter>)
    ensures |OfLocation(ps, BodyParam)| + |OfLocation(ps, HeaderParam)| +
            |OfLocation(ps, QueryParam)| + |OfLocation(ps, PathParam)| == |ps|
  {
    if ps != [] {
      LocationsPartition(ps[1..]);
    }
  }

  // ---------------------------------------------------------------------------
  // The signature

  /** `createParameter`: identifier, `?` when optional, then the type. */
  function ParameterText(p: Parameter, typeText: string): string {
    Identifier(p.name) + (if p.optional then "?" else "") + ": " + typeText
  }

  predicate ParamsBelow(ps: seq<Parameter>, n: nat) {
    forall i :: 0 <= i < |ps| ==> RefsBelow(ps[i].typ, n)
  }

  predicate ParamsCached(entries: map<nat, CachedInterface>, ps: seq<Parameter>) {
    forall i :: 0 <= i < |ps| ==> AllCached(entries, ps[i].typ)
  }

  /** The signature entries when every type is rendered from the cache. */
  function ParamsRender(entries: map<nat, CachedInterface>, ps: seq<Parameter>): (r: seq<string>)
    requires ParamsCached(entries, ps)
    ensures |r| == |ps|
    ensures forall i :: 0 <= i < |ps| ==> r[i] == ParameterText(ps[i], CachedRender(entries, ps[i].typ))
  {
    seq(|ps|, i requires 0 <= i < |ps| && ParamsCached(entries, ps) =>
      ParameterText(ps[i], CachedRender(entries, ps[i].typ)))
  }

  /** The parameters' signature entries, rendering their types in order. */
  lemma ParamsRenderMono(e1: map<nat, CachedInterface>, e2: map<nat, CachedInterface>, ps: seq<Parameter>)
    requires EntriesGrow(e1, e2) && ParamsCached(e1, ps)
    ensures ParamsCached(e2, ps) && ParamsRender(e2, ps) == ParamsRender(e1, ps)
  {
    forall i | 0 <= i < |ps|
      ensures AllCached(e2, ps[i].typ) && CachedRender(e2, ps[i].typ) == CachedRender(e1, ps[i].typ)
    {
      CachedRenderMono(e1, e2, ps[i].typ);
    }
  }

  function ParametersToTypeScript(models: seq<ModelDecl>, ctx: ClientContext, ps: seq<Parameter>): (r: Emitted<seq<string>>)
    requires ArenaOk(models) && ContextOk(models, ctx) && ParamsBelow(ps, |models|)
    ensures Extends(models, ctx, r.ctx)
    ensures ParamsCached(r.ctx.interfaceCache.entries, ps)
    ensures r.value == ParamsRender(r.ctx.interfaceCache.entries, ps)
    decreases |ps|
  {
    if ps == [] then Emitted([], ctx)
    else
      var x := RestTypeToTypeScript(models, ctx, ps[0].typ);
      var rest := ParametersToTypeScript(models, x.ctx, ps[1..]);
      ExtendsTrans(models, ctx, x.ctx, rest.ctx);
      ParamsStep(x.ctx.interfaceCache.entries, rest.ctx.interfaceCache.entries, ps, x.value, rest.value);
      Emitted([ParameterText(ps[0], x.value)] + rest.value, rest.ctx)
  }

  lemma ParamsStep(e1: map<nat, CachedInterface>, e2: map<nat, CachedInterface>, ps: seq<Parameter>, v: string, rest: seq<string>)
    requires ps != [] && EntriesGrow(e1, e2) && AllCached(e1, ps[0].typ)
    requires v == CachedRender(e1, ps[0].typ)
    requires ParamsCached(e2, ps[1..]) && rest == ParamsRender(e2, ps[1..])
    ensures ParamsCached(e2, ps) && [ParameterText(ps[0], v)] + rest == ParamsRender(e2, ps)
  {
    CachedRenderMono(e1, e2, ps[0].typ);
    forall i | 1 <= i < |ps|
      ensures AllCached(e2, ps[i].typ)
    {
      assert ps[i] == ps[1..][i - 1];
    }
    var r := ParamsRender(e2, ps);
    var s := [ParameterText(ps[0], v)] + rest;
    forall i | 0 <= i < |ps|
      ensures r[i] == s[i]
    {
      if i > 0 {
        assert ps[i] == ps[1..][i - 1];
        assert s[i] == rest[i - 1];
      }
    }
  }

  /** `createOperationParams`: one entry per parameter, in order, separated by ", ". */
  function CreateOperationParams(models: seq<ModelDecl>, ctx: ClientContext, op: Operation): (r: Emitted<string>)
    requires ArenaOk(models) && ContextOk(models, ctx) && ParamsBelow(op.parameters, |models|)
    ensures Extends(models, ctx, r.ctx)
    ensures ParamsCached(r.ctx.interfaceCache.entries, op.parameters)
    ensures r.value == Join(ParamsRender(r.ctx.interfaceCache.entries, op.parameters), ", ")
  {
    var x := ParametersToTypeScript(models, ctx, op.parameters);
    Emitted(Join(x.value, ", "), x.ctx)
  }

  // ---------------------------------------------------------------------------
  // The path

  /** One entry of the path-parameter object: shorthand when the quoted name is the
      identifier, `name: identifier` otherwise. */
  function PathEntry(p: Parameter): (r: string)
    ensures r == QuoteNameIfNeeded(p.name) <==> IsBare(p.name)
    ensures !IsBare(p.name) ==> r == QuoteNameIfNeeded(p.name) + ": " + Identifier(p.name)
    ensures IsBare(p.name) ==> r == p.name
  {
    var name := QuoteNameIfNeeded(p.name);
    var value := Identifier(p.name);
    QuotedIsNoIdentifier(p.name, value);
    if name == value then name else name + ": " + value
  }

  function PathEntries(ps: seq<Parameter>): (r: seq<string>)
    ensures |r| == |ps| && forall i :: 0 <= i < |ps| ==> r[i] == PathEntry(ps[i])
  {
    seq(|ps|, i requires 0 <= i < |ps| => PathEntry(ps[i]))
  }

  /** `getPathFromParameters`: the quoted path template alone when the operation has no
      path parameter; otherwise a call of `replacePathParameters` with one entry per
      path parameter, which also adds that helper to the client-library imports. */
  function GetPathFromParameters(ctx: ClientContext, op: Operation): (r: Emitted<string>)
    ensures ContextGrows(ctx, r.ctx)
    ensures OfLocation(op.parameters, PathParam) == [] ==> r == Emitted("\"" + op.path + "\"", ctx)
    ensures OfLocation(op.parameters, PathParam) != [] ==>
      r.ctx == AddClientLibImport(ctx, "replacePathParameters") &&
      r.value == "replacePathParameters(\"" + op.path + "\", {" + Join(PathEntries(OfLocation(op.parameters, PathParam)), ",") + "})"
  {
    var pathParams := OfLocation(op.parameters, PathParam);
    if pathParams == [] then Emitted("\"" + op.path + "\"", ctx)
    else
      var ctx1 := AddClientLibImport(ctx, "replacePathParameters");
      AddImportGrows(ctx, "replacePathParameters");
      Emitted("replacePathParameters(\"" + op.path + "\", {" + Join(PathEntries(pathParams), ",") + "})", ctx1)
  }

  /** The helper is imported exactly when there is a path parameter (or it was
      imported before). */
  lemma PathImport(ctx: ClientContext, op: Operation)
    ensures "replacePathParameters" in GetPathFromParameters(ctx, op).ctx.extraClientLibImports <==>
      OfLocation(op.parameters, PathParam) != [] || "replacePathParameters" in ctx.extraClientLibImports
  {
  }

  // ---------------------------------------------------------------------------
  // Headers

  /** A missing header field name is written as the text of `undefined`. */
  function SerializedText(s: Option<string>): string {
    s.GetOr("undefined")
  }

  function SetHeader(p: Parameter): string {
    "request.headers.set(\"" + SerializedText(p.serializedName) + "\", " + Identifier(p.name) + ");"
  }

  /** One header statement; an optional parameter is set only when its value is truthy. */
  function HeaderStatement(p: Parameter): (r: string)
    ensures !p.optional ==> r == SetHeader(p)
    ensures p.optional ==> r == "if (" + Identifier(p.name) + ") {\n" + SetHeader(p) + "\n}"
    ensures |r| >= 4 && (r[..4] == "if (" <==> p.optional)
  {
    var setHeader := SetHeader(p);
    assert setHeader[..4] == "requ";
    if p.optional then
      var guarded := "if (" + Identifier(p.name) + ") {\n" + setHeader + "\n}";
      assert guarded[..4] == "if (";
      guarded
    else setHeader
  }

  function HeaderStatements(ps: seq<Parameter>): (r: seq<string>)
    ensures |r| == |ps| && forall i :: 0 <= i < |ps| ==> r[i] == HeaderStatement(ps[i])
  {
    seq(|ps|, i requires 0 <= i < |ps| => HeaderStatement(ps[i]))
  }

  /** `getHeadersFromParameters`: one statement per header parameter, in order, one per
      line. */
  function GetHeadersFromParameters(op: Operation): (r: string)
    ensures var hs := OfLocation(op.parameters, HeaderParam);
      r == Join(HeaderStatements(hs), "\n") && (r == "" <==> hs == [])
    ensures var hs := OfLocation(op.parameters, HeaderParam);
      |hs| == 1 ==> r == HeaderStatement(hs[0])
  {
    var hs := OfLocation(op.parameters, HeaderParam);
    var statements := HeaderStatements(hs);
    assert hs != [] ==> |statements[0]| >= 4;
    Join(statements, "\n")
  }

  /** One more header parameter adds one line with its statement at the end. */
  lemma HeadersAppend(op: Operation, p: Parameter)
    requires p.location == HeaderParam && OfLocation(op.parameters, HeaderParam) != []
    ensures GetHeadersFromParameters(op.(parameters := op.parameters + [p])) ==
      GetHeadersFromParameters(op) + "\n" + HeaderStatement(p)
  {
    var hs := OfLocation(op.parameters, HeaderParam);
    OfLocationAppend(op.parameters, [p], HeaderParam);
    assert OfLocation([p], HeaderParam) == [p];
    assert HeaderStatements(hs + [p]) == HeaderStatements(hs) + [HeaderStatement(p)];
    JoinAppend(HeaderStatements(hs), HeaderStatement(p), "\n");
  }

  // ---------------------------------------------------------------------------
  // Query

  /** The query value needs `stringifyQueryParam`: booleans, numbers, and unions with
      an option that is not a string. */
  predicate NeedsStringify(t: RestType) {
    t.BooleanType? || t.NumberType? || (t.UnionType? && exists o :: o in t.options && !o.StringType?)
  }

  /** The kinds a query parameter cannot have: arrays of anything but strings, models
      and maps. */
  predicate QueryUnsupported(t: RestType) {
    (t.ArrayType? && !t.elementType.StringType?) || t.ModelType? || t.MapType?
  }

  function KindName(t: RestType): string {
    match t
    case StringType(_) => "string"
    case NumberType(_) => "number"
    case BooleanType(_) => "boolean"
    case ArrayType(_) => "array"
    case ModelType(_) => "model"
    case UnionType(_) => "union"
    case MapType(_) => "map"
  }

  /** `stringifyParamIfNeeded`: the identifier, wrapped in `stringifyQueryParam` when
      the value is not a string; an error for the kinds a query cannot carry. */
  function StringifyParamIfNeeded(p: Parameter): (r: Result<string, string>)
    ensures r.Failure? <==> QueryUnsupported(p.typ)
    ensures r.Success? && NeedsStringify(p.typ) ==> r.value == "stringifyQueryParam(" + Identifier(p.name) + ")"
    ensures r.Success? && !NeedsStringify(p.typ) ==> r.value == Identifier(p.name)
    ensures r.Failure? && p.typ.ArrayType? ==> r.error == "Non-string arrays not supported currently for query parameter " + p.name
    ensures r.Failure? && !p.typ.ArrayType? ==> r.error == "No support for " + KindName(p.typ) + " in query parameter " + p.name
  {
    var identifier := Identifier(p.name);
    match p.typ
    case StringType(_) => Success(identifier)
    case BooleanType(_) => Success("stringifyQueryParam(" + identifier + ")")
    case NumberType(_) => Success("stringifyQueryParam(" + identifier + ")")
    case UnionType(options) =>
      var nonString := exists o :: o in options && !o.StringType?;
      Success(if nonString then "stringifyQueryParam(" + identifier + ")" else identifier)
    case ArrayType(e) =>
      if !e.StringType? then Failure("Non-string arrays not supported currently for query parameter " + p.name)
      else Success(identifier)
    case _ => Failure("No support for " + KindName(p.typ) + " in query parameter " + p.name)
  }

  /** One entry of the query object: shorthand when the quoted name equals the value
      text, `name:  value` otherwise. */
  function QueryEntry(p: Parameter, value: string): string {
    var name := QuoteNameIfNeeded(p.name);
    if name == value then name else name + ":  " + value
  }

  /** An entry is shorthand exactly when the name is bare and the value is not
      stringified. */
  lemma QueryShorthand(p: Parameter)
    requires StringifyParamIfNeeded(p).Success?
    ensures var v := StringifyParamIfNeeded(p).value;
      QueryEntry(p, v) == QuoteNameIfNeeded(p.name) <==> IsBare(p.name) && !NeedsStringify(p.typ)
  {
    var v := StringifyParamIfNeeded(p).value;
    var q := QuoteNameIfNeeded(p.name);
    QuotedIsNoIdentifier(p.name, Identifier(p.name));
    if NeedsStringify(p.typ) {
      if IsBare(p.name) {
        assert |v| > |q|;
      } else {
        assert q[0] == '"' && v[0] == 's';
      }
    }
    if q != v {
      var e := q + ":  " + v;
      assert |e| > |q|;
    }
  }

  /** The position of the first query parameter that cannot be a query value. */
  function FirstUnsupported(qs: seq<Parameter>): (r: Option<nat>)
    ensures r.None? <==> forall i :: 0 <= i < |qs| ==> !QueryUnsupported(qs[i].typ)
    ensures r.Some? ==> (r.value < |qs| && QueryUnsupported(qs[r.value].typ) &&
      forall j :: 0 <= j < r.value ==> !QueryUnsupported(qs[j].typ))
  {
    if qs == [] then None
    else if QueryUnsupported(qs[0].typ) then Some(0)
    else
      var rest := FirstUnsupported(qs[1..]);
      assert forall i :: 1 <= i < |qs| ==> qs[i] == qs[1..][i - 1];
      if rest.None? then None else Some(rest.value + 1)
  }

  /** The entries of the query parameters, in order; the first parameter that cannot be
      a query value raises its error. */
  function QueryEntries(qs: seq<Parameter>): (r: Result<seq<string>, string>)
    ensures r.Failure? <==> FirstUnsupported(qs).Some?
    ensures r.Failure? ==> r.error == StringifyParamIfNeeded(qs[FirstUnsupported(qs).value]).error
    ensures r.Success? ==> (|r.value| == |qs| &&
      forall i :: 0 <= i < |qs| ==> r.value[i] == QueryEntry(qs[i], StringifyParamIfNeeded(qs[i]).value))
  {
    if qs == [] then Success([])
    else
      var v := StringifyParamIfNeeded(qs[0]);
      if v.Failure? then Failure(v.error)
      else
        var rest := QueryEntries(qs[1..]);
        if rest.Failure? then Failure(rest.error)
        else
          var r := [QueryEntry(qs[0], v.value)] + rest.value;
          assert forall i :: 1 <= i < |qs| ==> r[i] == rest.value[i - 1];
          Success(r)
  }

  /** `getQueryParamsFromParameters`: the object literal of the query parameters. */
  function GetQueryParamsFromParameters(op: Operation): (r: Result<string, string>)
    ensures r.Failure? <==> exists p :: p in op.parameters && p.location == QueryParam && QueryUnsupported(p.typ)
    ensures var qs := OfLocation(op.parameters, QueryParam);
      r.Failure? ==> FirstUnsupported(qs).Some? && r.error == StringifyParamIfNeeded(qs[FirstUnsupported(qs).value]).error
    ensures var qs := OfLocation(op.parameters, QueryParam);
      r.Success? ==> QueryEntries(qs).Success? && r.value == "{ " + Join(QueryEntries(qs).value, ",") + " }"
  {
    var qs := OfLocation(op.parameters, QueryParam);
    var entries := QueryEntries(qs);
    if entries.Failure? then
      Failure(entries.error)
    else
      assert forall p :: p in qs ==> StringifyParamIfNeeded(p).Success?;
      Success("{ " + Join(entries.value, ",") + " }")
  }

  // ---------------------------------------------------------------------------
  // Body

  /** The position of the first body parameter (`find`). */
  function FirstBody(ps: seq<Parameter>): (r: Option<nat>)
    ensures r.None? <==> forall p :: p in ps ==> p.location != BodyParam
    ensures r.Some? ==> (r.value < |ps| && ps[r.value].location == BodyParam &&
      forall j :: 0 <= j < r.value ==> ps[j].location != BodyParam)
  {
    if ps == [] then None
    else if ps[0].location == BodyParam then Some(0)
    else
      var rest := FirstBody(ps[1..]);
      assert forall p :: p in ps ==> p == ps[0] || p in ps[1..];
      if rest.None? then None else Some(rest.value + 1)
  }

  /** `getBody`: nothing without a body parameter, otherwise the first body parameter
      spread into the serialised body. */
  function GetBody(op: Operation): (r: string)
    ensures r == [] <==> forall p :: p in op.parameters ==> p.location != BodyParam
    ensures r != [] ==> r == "\nrequest.body = JSON.stringify({ ..." + Identifier(op.parameters[FirstBody(op.parameters).value].name) + " });"
  {
    match FirstBody(op.parameters)
    case None => ""
    case Some(i) => "\nrequest.body = JSON.stringify({ ..." + Identifier(op.parameters[i].name) + " });"
  }
}
