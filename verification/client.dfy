/** One generated client (packages/emitter/src/generators/client.ts and sourceFile.ts):
    its operations are emitted in order against one fresh state, and the file is the
    import block, the interfaces that state collected, and the class holding the
    methods. */
module ClientCode {
  import opened Wrappers
  import opened Strings
  import opened Ordered
  import opened Ir
  import opened Cache
  import opened Interfaces
  import opened ParameterCode
  import opened ResponseCode
  import opened OperationCode
  import opened ImportsCode

  predicate OperationsOk(models: seq<ModelDecl>, responses: seq<Response>, ops: seq<Operation>) {
    forall i :: 0 <= i < |ops| ==> OperationOk(models, responses, ops[i])
  }

  /** Every operation's responses point into the response arena. */
  predicate ResponsesBelow(responses: seq<Response>, ops: seq<Operation>) {
    forall i :: 0 <= i < |ops| ==> IdsBelow(ops[i].responses, |responses|)
  }

  /** The first operation with a query parameter the query string cannot carry. */
  function FirstUnsupported(ops: seq<Operation>): (r: Option<nat>)
    ensures r.None? <==> forall i :: 0 <= i < |ops| ==> !HasUnsupportedQuery(ops[i])
    ensures r.Some? ==> (r.value < |ops| && HasUnsupportedQuery(ops[r.value]) &&
      forall j :: 0 <= j < r.value ==> !HasUnsupportedQuery(ops[j]))
  {
    if ops == [] then None
    else if HasUnsupportedQuery(ops[0]) then Some(0)
    else
      var rest := FirstUnsupported(ops[1..]);
      assert forall i :: 1 <= i < |ops| ==> ops[i] == ops[1..][i - 1];
      if rest.Some? then Some(rest.value + 1) else None
  }

  /** Among the first `n` operations, one has no default response. */
  predicate SomeWithoutDefault(responses: seq<Response>, ops: seq<Operation>, n: nat)
    requires ResponsesBelow(responses, ops)
  {
    exists i :: 0 <= i < n && i < |ops| && !HasDefault(responses, ops[i].responses)
  }

  /** Among the first `n` operations, one has a path parameter. */
  predicate SomeWithPathParams(ops: seq<Operation>, n: nat) {
    exists i :: 0 <= i < n && i < |ops| && OfLocation(ops[i].parameters, PathParam) != []
  }

  /** Among the first `n` operations, one has a response with header properties. */
  predicate SomeWithResponseHeaders(responses: seq<Response>, ops: seq<Operation>, n: nat)
    requires ResponsesBelow(responses, ops)
  {
    exists i :: 0 <= i < n && i < |ops| && AnyHeaders(responses, ops[i].responses)
  }

  /** The imports the first `n` operations add to those of `c1`. */
  predicate ClientImports(responses: seq<Response>, c1: ClientContext, c2: ClientContext, ops: seq<Operation>, n: nat)
    requires ResponsesBelow(responses, ops)
  {
    ("RestError" in c2.extraCorePipelineImports <==>
      "RestError" in c1.extraCorePipelineImports || SomeWithoutDefault(responses, ops, n)) &&
    ("replacePathParameters" in c2.extraClientLibImports <==>
      "replacePathParameters" in c1.extraClientLibImports || SomeWithPathParams(ops, n)) &&
    ("getHeader" in c2.extraClientLibImports <==>
      "getHeader" in c1.extraClientLibImports || SomeWithResponseHeaders(responses, ops, n))
  }

  lemma ImportsStep(responses: seq<Response>, c0: ClientContext, c1: ClientContext, c2: ClientContext, ops: seq<Operation>, n: nat)
    requires n < |ops| && ResponsesBelow(responses, ops)
    requires ClientImports(responses, c0, c1, ops, n) && OperationImports(responses, c1, c2, ops[n])
    requires ImportsGrow(c1, c2)
    ensures ClientImports(responses, c0, c2, ops, n + 1)
  {
    assert SomeWithoutDefault(responses, ops, n + 1) <==>
      SomeWithoutDefault(responses, ops, n) || !HasDefault(responses, ops[n].responses);
    assert SomeWithPathParams(ops, n + 1) <==>
      SomeWithPathParams(ops, n) || OfLocation(ops[n].parameters, PathParam) != [];
    assert SomeWithResponseHeaders(responses, ops, n + 1) <==>
      SomeWithResponseHeaders(responses, ops, n) || AnyHeaders(responses, ops[n].responses);
    GrownImportsKept(c1, c2);
  }

  lemma GrownImportsKept(c1: ClientContext, c2: ClientContext)
    requires ImportsGrow(c1, c2)
    ensures forall x :: x in c1.extraCorePipelineImports ==> x in c2.extraCorePipelineImports
    ensures forall x :: x in c1.extraClientLibImports ==> x in c2.extraClientLibImports
  {
    forall x | x in c1.extraCorePipelineImports
      ensures x in c2.extraCorePipelineImports
    {
      var i :| 0 <= i < |c1.extraCorePipelineImports| && c1.extraCorePipelineImports[i] == x;
      assert c2.extraCorePipelineImports[i] == x;
    }
    forall x | x in c1.extraClientLibImports
      ensures x in c2.extraClientLibImports
    {
      var i :| 0 <= i < |c1.extraClientLibImports| && c1.extraClientLibImports[i] == x;
      assert c2.extraClientLibImports[i] == x;
    }
  }

  /** The non-error responses of the first `n` operations: the response interfaces they
      declare. */
  function ReturnedIds(responses: seq<Response>, ops: seq<Operation>, n: nat): set<nat>
    requires ResponsesBelow(responses, ops) && n <= |ops|
  {
    if n == 0 then {}
    else
      var ids := NonErrorIds(responses, ops[n - 1].responses);
      ReturnedIds(responses, ops, n - 1) + (set id | id in ids)
  }

  /** `t` is the method text of `op`, read off `c`. */
  predicate ReadAs(responses: seq<Response>, c: ClientContext, op: Operation, t: string) {
    Emittable(responses, op) && Rendered(responses, c, op) && t == MethodText(responses, c, op)
  }

  /** `texts` are the method texts of the first `n` operations, read off `c`. */
  predicate TextsRead(responses: seq<Response>, c: ClientContext, ops: seq<Operation>, n: nat, texts: seq<string>)
    requires n <= |ops|
  {
    |texts| == n &&
    (forall i :: 0 <= i < n ==> Emittable(responses, ops[i])) &&
    forall i {:trigger texts[i]} :: 0 <= i < n ==> ReadAs(responses, c, ops[i], texts[i])
  }

  lemma TextsAt(responses: seq<Response>, c: ClientContext, ops: seq<Operation>, n: nat, texts: seq<string>, i: nat)
    requires n <= |ops| && TextsRead(responses, c, ops, n, texts) && i < n
    ensures Emittable(responses, ops[i]) && Rendered(responses, c, ops[i]) && texts[i] == MethodText(responses, c, ops[i])
  {
    var t := texts[i];
  }

  /** What emitting the first `n` operations from `c0` leaves in `c`. */
  predicate EmittedUpTo(models: seq<ModelDecl>, responses: seq<Response>, c0: ClientContext, c: ClientContext, ops: seq<Operation>, n: nat, texts: seq<string>)
    requires ResponsesBelow(responses, ops) && n <= |ops|
  {
    Advances(models, c0, c) &&
    ClientImports(responses, c0, c, ops, n) &&
    c.responseCache.entries.Keys == c0.responseCache.entries.Keys + ReturnedIds(responses, ops, n) &&
    TextsRead(responses, c, ops, n, texts)
  }

  /** `operations.map(createOperation)`, threading one state. The first operation whose
      query parameters cannot be written stops the client with its message; otherwise
      every method text reads off the final state. */
  method CreateOperations(models: seq<ModelDecl>, responses: seq<Response>, ctx: ClientContext, ops: seq<Operation>) returns (r: Result<Emitted<seq<string>>, string>)
    requires ArenaOk(models) && ResponsesOk(models, responses) && ContextOk(models, ctx) && OperationsOk(models, responses, ops)
    ensures ResponsesBelow(responses, ops)
    ensures r.Failure? <==> FirstUnsupported(ops).Some?
    ensures r.Failure? ==> r.error == GetQueryParamsFromParameters(ops[FirstUnsupported(ops).value]).error
    ensures r.Success? ==> EmittedUpTo(models, responses, ctx, r.value.ctx, ops, |ops|, r.value.value)
  {
    var c := ctx;
    var texts: seq<string> := [];
    AdvancesRefl(models, ctx);
    for n := 0 to |ops|
      invariant EmittedUpTo(models, responses, ctx, c, ops, n, texts)
    {
      var x := EmitNext(models, responses, ctx, c, ops, n, texts);
      if x.Failure? {
        return Failure(x.error);
      }
      c, texts := x.value.ctx, x.value.value;
    }
    RenderedSupported(responses, c, ops, |ops|, texts);
    r := Success(Emitted(texts, c));
  }

  /** One step of `CreateOperations`: the next operation's method is emitted, or its
      query parameters stop the client. */
  method EmitNext(models: seq<ModelDecl>, responses: seq<Response>, c0: ClientContext, c: ClientContext,
                  ops: seq<Operation>, n: nat, texts: seq<string>) returns (r: Result<Emitted<seq<string>>, string>)
    requires ArenaOk(models) && ResponsesOk(models, responses) && OperationsOk(models, responses, ops)
    requires n < |ops| && ResponsesBelow(responses, ops)
    requires EmittedUpTo(models, responses, c0, c, ops, n, texts)
    ensures r.Failure? <==> HasUnsupportedQuery(ops[n])
    ensures r.Failure? ==> FirstUnsupported(ops) == Some(n) && r.error == GetQueryParamsFromParameters(ops[n]).error
    ensures r.Success? ==> EmittedUpTo(models, responses, c0, r.value.ctx, ops, n + 1, r.value.value)
  {
    var x := CreateOperation(models, responses, c, ops[n]);
    RenderedSupported(responses, c, ops, n, texts);
    if x.Failure? {
      FirstUnsupportedAt(ops, n);
      return Failure(x.error);
    }
    EmitStep(models, responses, c0, c, x.value, ops, n, texts);
    r := Success(Emitted(texts + [x.value.value], x.value.ctx));
  }

  /** Emitted operations have no unsupported query parameter. */
  lemma RenderedSupported(responses: seq<Response>, c: ClientContext, ops: seq<Operation>, n: nat, texts: seq<string>)
    requires n <= |ops| && TextsRead(responses, c, ops, n, texts)
    ensures forall i :: 0 <= i < n ==> !HasUnsupportedQuery(ops[i])
  {
  }

  /** Some operation has a query parameter the query string cannot carry. */
  predicate AnyUnsupported(ops: seq<Operation>) {
    exists i :: 0 <= i < |ops| && HasUnsupportedQuery(ops[i])
  }

  /** There is a first unsupported operation exactly when some operation is unsupported. */
  lemma SomeUnsupported(ops: seq<Operation>)
    ensures FirstUnsupported(ops).Some? <==> AnyUnsupported(ops)
  {
    var f := FirstUnsupported(ops);
    if f.Some? {
      assert HasUnsupportedQuery(ops[f.value]);
    }
  }

  /** An unsupported operation after supported ones is the first unsupported one. */
  lemma FirstUnsupportedAt(ops: seq<Operation>, n: nat)
    requires n < |ops| && HasUnsupportedQuery(ops[n])
    requires forall i :: 0 <= i < n ==> !HasUnsupportedQuery(ops[i])
    ensures FirstUnsupported(ops) == Some(n)
  {
  }

  lemma EmitStep(models: seq<ModelDecl>, responses: seq<Response>, c0: ClientContext, c: ClientContext, x: Emitted<string>,
                 ops: seq<Operation>, n: nat, texts: seq<string>)
    requires ResponsesBelow(responses, ops) && n < |ops| && Emittable(responses, ops[n])
    requires EmittedUpTo(models, responses, c0, c, ops, n, texts)
    requires Advances(models, c, x.ctx) && OperationImports(responses, c, x.ctx, ops[n])
    requires x.ctx.responseCache.entries.Keys ==
      c.responseCache.entries.Keys + (set k | k in NonErrorIds(responses, ops[n].responses))
    requires Rendered(responses, x.ctx, ops[n]) && x.value == MethodText(responses, x.ctx, ops[n])
    ensures EmittedUpTo(models, responses, c0, x.ctx, ops, n + 1, texts + [x.value])
  {
    AdvancesTrans(models, c0, c, x.ctx);
    ImportsStep(responses, c0, c, x.ctx, ops, n);
    KeysStep(responses, c0, c, x.ctx, ops, n);
    TextsStep(responses, c, x.ctx, ops, n, texts, x.value);
  }

  lemma KeysStep(responses: seq<Response>, c0: ClientContext, c: ClientContext, c2: ClientContext, ops: seq<Operation>, n: nat)
    requires ResponsesBelow(responses, ops) && n < |ops|
    requires c.responseCache.entries.Keys == c0.responseCache.entries.Keys + ReturnedIds(responses, ops, n)
    requires c2.responseCache.entries.Keys ==
      c.responseCache.entries.Keys + (set k | k in NonErrorIds(responses, ops[n].responses))
    ensures c2.responseCache.entries.Keys == c0.responseCache.entries.Keys + ReturnedIds(responses, ops, n + 1)
  {
  }

  /** The texts read off the state before an operation read the same off the state
      after it, and that operation's own text joins them. */
  lemma TextsStep(responses: seq<Response>, c: ClientContext, c2: ClientContext, ops: seq<Operation>, n: nat, texts: seq<string>, t: string)
    requires n < |ops| && Emittable(responses, ops[n]) && TextsRead(responses, c, ops, n, texts)
    requires CachedGrows(c.interfaceCache, c2.interfaceCache) && CachedGrows(c.responseCache, c2.responseCache)
    requires Rendered(responses, c2, ops[n]) && t == MethodText(responses, c2, ops[n])
    ensures TextsRead(responses, c2, ops, n + 1, texts + [t])
  {
    TextsMono(responses, c, c2, ops, n, texts);
    TextsAppend(responses, c2, ops, n, texts, t);
  }

  lemma TextsMono(responses: seq<Response>, c: ClientContext, c2: ClientContext, ops: seq<Operation>, n: nat, texts: seq<string>)
    requires n <= |ops| && TextsRead(responses, c, ops, n, texts)
    requires CachedGrows(c.interfaceCache, c2.interfaceCache) && CachedGrows(c.responseCache, c2.responseCache)
    ensures TextsRead(responses, c2, ops, n, texts)
  {
    forall i | 0 <= i < n
      ensures Rendered(responses, c2, ops[i]) && texts[i] == MethodText(responses, c2, ops[i])
    {
      TextsAt(responses, c, ops, n, texts, i);
      MethodTextMono(responses, c, c2, ops[i]);
    }
  }

  lemma TextsAppend(responses: seq<Response>, c: ClientContext, ops: seq<Operation>, n: nat, texts: seq<string>, t: string)
    requires n < |ops| && TextsRead(responses, c, ops, n, texts) && ReadAs(responses, c, ops[n], t)
    ensures TextsRead(responses, c, ops, n + 1, texts + [t])
  {
    forall i | 0 <= i < n + 1
      ensures ReadAs(responses, c, ops[i], (texts + [t])[i])
    {
      TextAppendedAt(responses, c, ops, n, texts, t, i);
    }
  }

  lemma TextAppendedAt(responses: seq<Response>, c: ClientContext, ops: seq<Operation>, n: nat, texts: seq<string>, t: string, i: nat)
    requires n < |ops| && TextsRead(responses, c, ops, n, texts) && i <= n
    requires ReadAs(responses, c, ops[n], t)
    ensures ReadAs(responses, c, ops[i], (texts + [t])[i])
  {
    if i < n {
      assert (texts + [t])[i] == texts[i];
    }
  }

  /** The copyright and licence comment every generated file opens with; its wording
      plays no part in any property. */
  const FileHeader: string

  /** `createSourceFile`: the licence header, the text, and a final newline. */
  function SourceFile(text: string): (r: string)
    ensures StartsWith(r, FileHeader) && EndsWith(r, text + "\n")
  {
    ConcatStartsEnds(FileHeader, text + "\n");
    FileHeader + (text + "\n")
  }

  /** The fields and the constructor of every generated client class. */
  const ClassPreamble: string :=
    "protected _pipeline: Pipeline;\nprivate _endpoint: string;\n\n" +
    "constructor(endpoint: string, options?: CommonClientOptions) {\n" +
    "this._endpoint = endpoint;\nthis._pipeline = createClientPipeline(options ?? {});\n}\n"

  /** The file body: imports, interfaces, then the class with its constructor and
      methods. */
  function ClientText(name: string, imports: string, interfaces: string, operationText: string): (r: string)
    ensures StartsWith(r, ClassHead(name, imports, interfaces))
    ensures EndsWith(r, operationText + "\n}") && EndsWith(r, "\n}")
  {
    var head := ClassHead(name, imports, interfaces);
    StartsWithPieces(head, ClassPreamble, operationText + "\n}");
    ConcatStartsEnds(head + ClassPreamble, operationText + "\n}");
    var r := head + ClassPreamble + (operationText + "\n}");
    EndsClass(r, operationText);
    r
  }

  /** The file body up to the class's opening brace: the import block, the interfaces,
      then the declaration of the class named after the client. */
  function ClassHead(name: string, imports: string, interfaces: string): string {
    "\n" + imports + "\n" + interfaces + "\nexport class " + name + " {\n"
  }

  /** A text ending with `suffix + "\n}"` ends with `"\n}"`. */
  lemma EndsClass(r: string, suffix: string)
    requires EndsWith(r, suffix + "\n}")
    ensures EndsWith(r, "\n}")
  {
    assert r[|r| - 2..] == (suffix + "\n}")[|suffix|..];
  }

  lemma ClassEnds(text: string)
    requires EndsWith(text, "\n}")
    ensures EndsWith(SourceFile(text), "\n}\n")
  {
    EndsWithConcat(FileHeader, text, "\n}", "\n");
    assert FileHeader + text + "\n" == SourceFile(text);
  }

  /** What a client's final state holds: `RestError`, `replacePathParameters` and
      `getHeader` are imported exactly when some operation needs them, no name is
      imported twice, every cached interface is finished, and the response interfaces
      are those of the non-error responses. */
  predicate ClientStateOk(models: seq<ModelDecl>, responses: seq<Response>, ops: seq<Operation>, c: ClientContext)
    requires ResponsesBelow(responses, ops)
  {
    ContextOk(models, c) &&
    ("RestError" in CorePipelineImports(c) <==> SomeWithoutDefault(responses, ops, |ops|)) &&
    ("replacePathParameters" in ClientLibImports(c) <==> SomeWithPathParams(ops, |ops|)) &&
    ("getHeader" in ClientLibImports(c) <==> SomeWithResponseHeaders(responses, ops, |ops|)) &&
    NoDuplicates(CorePipelineImports(c)) && NoDuplicates(ClientLibImports(c)) &&
    (forall k :: k in c.interfaceCache.entries ==> c.interfaceCache.entries[k].generatedText != []) &&
    (forall k :: k in c.responseCache.entries ==> c.responseCache.entries[k].generatedText != []) &&
    c.responseCache.entries.Keys == ReturnedIds(responses, ops, |ops|)
  }

  /** A generated client file, together with the method texts it holds and the state
      it was written from. */
  datatype ClientFile = ClientFile(text: string, methods: seq<string>, state: ClientContext)

  /** `createClient`: the operations are emitted in order against a fresh state, and the
      file is the import block and the interfaces that state collected, followed by the
      class whose methods read off the same state. */
  method CreateClient(models: seq<ModelDecl>, responses: seq<Response>, client: Client) returns (r: Result<ClientFile, string>)
    requires ArenaOk(models) && ResponsesOk(models, responses) && OperationsOk(models, responses, client.operations)
    ensures ResponsesBelow(responses, client.operations)
    ensures r.Failure? <==> AnyUnsupported(client.operations)
    ensures r.Failure? ==>
      r.error == GetQueryParamsFromParameters(client.operations[FirstUnsupported(client.operations).value]).error
    ensures r.Success? ==> ClientStateOk(models, responses, client.operations, r.value.state)
    ensures r.Success? ==>
      var ops, c := client.operations, r.value.state;
      TextsRead(responses, c, ops, |ops|, r.value.methods) &&
      r.value.text == SourceFile(ClientText(client.name, CreateImports(c), CreateInterfaces(c), Join(r.value.methods, "")))
    ensures r.Success? ==> StartsWith(r.value.text, FileHeader) && EndsWith(r.value.text, "\n}\n")
  {
    FreshContextOk(models);
    SomeUnsupported(client.operations);
    var c0 := FreshClientContext();
    var ops := CreateOperations(models, responses, c0, client.operations);
    if ops.Failure? {
      return Failure(ops.error);
    }
    ClientReady(models, responses, client.operations, ops.value.ctx, ops.value.value);
    var file := WriteClient(models, responses, client, ops.value.ctx, ops.value.value);
    r := Success(file);
  }

  /** The file of a client whose operations have all been emitted into `c`. */
  method WriteClient(models: seq<ModelDecl>, responses: seq<Response>, client: Client, c: ClientContext, methods: seq<string>)
    returns (r: ClientFile)
    requires ResponsesBelow(responses, client.operations)
    requires Advances(models, FreshClientContext(), c)
    requires ClientImports(responses, FreshClientContext(), c, client.operations, |client.operations|)
    requires c.responseCache.entries.Keys == ReturnedIds(responses, client.operations, |client.operations|)
    ensures r.state == c && r.methods == methods
    ensures ClientStateOk(models, responses, client.operations, c)
    ensures r.text == SourceFile(ClientText(client.name, CreateImports(c), CreateInterfaces(c), Join(methods, "")))
    ensures StartsWith(r.text, FileHeader) && EndsWith(r.text, "\n}\n")
  {
    FinalState(models, responses, client.operations, c);
    var text := ClientText(client.name, CreateImports(c), CreateInterfaces(c), Join(methods, ""));
    ClassEnds(text);
    r := ClientFile(SourceFile(text), methods, c);
  }

  /** Emitting every operation from the fresh state leaves what `FinalState` reads. */
  lemma ClientReady(models: seq<ModelDecl>, responses: seq<Response>, ops: seq<Operation>, c: ClientContext, texts: seq<string>)
    requires ResponsesBelow(responses, ops)
    requires EmittedUpTo(models, responses, FreshClientContext(), c, ops, |ops|, texts)
    ensures Advances(models, FreshClientContext(), c)
    ensures ClientImports(responses, FreshClientContext(), c, ops, |ops|)
    ensures c.responseCache.entries.Keys == ReturnedIds(responses, ops, |ops|)
  {
    assert FreshClientContext().responseCache.entries.Keys == {};
  }

  lemma FinalState(models: seq<ModelDecl>, responses: seq<Response>, ops: seq<Operation>, c: ClientContext)
    requires ResponsesBelow(responses, ops)
    requires Advances(models, FreshClientContext(), c)
    requires ClientImports(responses, FreshClientContext(), c, ops, |ops|)
    requires c.responseCache.entries.Keys == ReturnedIds(responses, ops, |ops|)
    ensures ClientStateOk(models, responses, ops, c)
  {
    ImportsDistinct(models, c);
    assert "RestError" !in BaseCorePipelineImports;
    assert "replacePathParameters" !in BaseClientLibImports && "getHeader" !in BaseClientLibImports;
  }
}
