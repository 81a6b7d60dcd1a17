/** The import block of a generated client (packages/emitter/src/generators/imports.ts):
    the fixed names each client uses, followed by the ones its operations added. */
module ImportsCode {
  import opened Strings
  import opened Ordered
  import opened Ir
  import opened Cache

  const CorePipelineModule: string := "@azure/core-rest-pipeline"
  const ClientLibModule: string := "@azure-tools/cadl-ts-client"

  const BaseCorePipelineImports: seq<string> := ["createPipelineRequest", "Pipeline"]
  const BaseClientLibImports: seq<string> :=
    ["CommonClientOptions", "createClientPipeline", "makeRequest", "getRequestUrl", "tryParseResponse", "stringifyQueryParam"]

  /** The names imported from the core pipeline: the fixed ones, then the added ones. */
  function CorePipelineImports(ctx: ClientContext): (r: seq<string>)
    ensures |r| == |BaseCorePipelineImports| + |ctx.extraCorePipelineImports|
    ensures r[..|BaseCorePipelineImports|] == BaseCorePipelineImports
    ensures r[|BaseCorePipelineImports|..] == ctx.extraCorePipelineImports
  {
    BaseCorePipelineImports + ctx.extraCorePipelineImports
  }

  /** The names imported from the client library: the fixed ones, then the added ones. */
  function ClientLibImports(ctx: ClientContext): (r: seq<string>)
    ensures |r| == |BaseClientLibImports| + |ctx.extraClientLibImports|
    ensures r[..|BaseClientLibImports|] == BaseClientLibImports
    ensures r[|BaseClientLibImports|..] == ctx.extraClientLibImports
  {
    BaseClientLibImports + ctx.extraClientLibImports
  }

  /** One `import { a,b } from "module";` line (`Array.prototype.join` without an
      argument separates with commas). */
  function ImportLine(names: seq<string>, from: string): (r: string)
    ensures r == "import { " + Join(names, ",") + " } from \"" + from + "\";\n"
    ensures StartsWith(r, "import { ") && EndsWith(r, " } from \"" + from + "\";\n")
  {
    var tail := " } from \"" + from + "\";\n";
    var r := "import { " + Join(names, ",") + tail;
    assert r[..|"import { "|] == "import { ";
    assert r[|r| - |tail|..] == tail;
    r
  }

  /** The braces of an import line hold exactly the imported names, in order, when no
      name contains a comma: splitting their contents at the commas gives the names back. */
  lemma ImportLineNames(names: seq<string>, from: string)
    requires names != []
    requires forall k :: 0 <= k < |names| ==> ',' !in names[k]
    ensures var r := ImportLine(names, from);
      var tail := " } from \"" + from + "\";\n";
      |"import { "| + |tail| <= |r| && Split(r[|"import { "|..|r| - |tail|], {','}) == names
  {
    var r := ImportLine(names, from);
    var tail := " } from \"" + from + "\";\n";
    assert r[|"import { "|..|r| - |tail|] == Join(names, [',']);
    SplitJoin(names, ',');
  }

  /** `createImports`: the core-pipeline line, then the client-library line. */
  function CreateImports(ctx: ClientContext): (r: string)
    ensures r == ImportLine(CorePipelineImports(ctx), CorePipelineModule) + ImportLine(ClientLibImports(ctx), ClientLibModule)
    ensures StartsWith(r, ImportLine(CorePipelineImports(ctx), CorePipelineModule))
    ensures EndsWith(r, ImportLine(ClientLibImports(ctx), ClientLibModule))
  {
    var a := ImportLine(CorePipelineImports(ctx), CorePipelineModule);
    var b := ImportLine(ClientLibImports(ctx), ClientLibModule);
    ConcatStartsEnds(a, b);
    a + b
  }

  /** No name is imported twice: the added names are distinct and none of them is one of
      the fixed names, so the generated import declarations are valid TypeScript. */
  lemma ImportsDistinct(models: seq<ModelDecl>, ctx: ClientContext)
    requires ContextOk(models, ctx)
    ensures NoDuplicates(CorePipelineImports(ctx)) && NoDuplicates(ClientLibImports(ctx))
  {
    AppendDistinct(BaseCorePipelineImports, ctx.extraCorePipelineImports);
    AppendDistinct(BaseClientLibImports, ctx.extraClientLibImports);
  }

  lemma AppendDistinct(a: seq<string>, b: seq<string>)
    requires NoDuplicates(a) && NoDuplicates(b)
    requires forall x :: x in b ==> x !in a
    ensures NoDuplicates(a + b)
  {
    var s := a + b;
    forall i, j | 0 <= i < j < |s|
      ensures s[i] != s[j]
    {
      if j >= |a| && i < |a| {
        assert s[j] == b[j - |a|] && s[i] == a[i];
        assert b[j - |a|] in b && a[i] in a;
      } else if i >= |a| {
        assert s[i] == b[i - |a|] && s[j] == b[j - |a|];
      }
    }
  }
}
