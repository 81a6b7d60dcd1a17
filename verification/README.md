# cadl-ts client generator, modelled in Dafny

This project models the core of cadl-ts, a generator that turns a Cadl REST
description into TypeScript client code. It has three parts:

- **The modeler** (`packages/emitter/src/modeler`) walks the host compiler's type graph.
  It builds the intermediate representation: REST types, model nodes, responses,
  parameters, operations, and clients grouped by route group.
  - Model and response nodes are kept in identity-keyed caches, so a recursive model
    ends up as a cycle.
  - The model keeps the nodes in arenas and refers to them by index.
- **The emitter generators** (`packages/emitter/src/generators`) turn one client into the
  text of a TypeScript source file. The file holds:
  - the import block;
  - one interface per named model and per response;
  - one method per operation.

  The emitter threads a `ClientContext` through every call: two insertion-ordered caches
  and two import sets.
- **The client runtime URL builder** (`packages/client/src/urlHelpers.ts`) joins a base
  URL, a path and query parameters.

Every stateful operation is a pure function from a state to a result and the next state.
The generators' contracts compare each result with a stateless reference rendering that
reads the final cache. The modeler's contracts compare each result with a stateless
reference translation that reads the final model cache. Examples:

- `Common.CreateRestType` yields exactly `Translation` under the cache it leaves behind.
- `Interfaces.RestTypeToTypeScript` yields exactly `CachedRender` of the entries it leaves
  behind.

Invariants that every step keeps state that the caches only grow, that every node built is
finished, and that no import is added twice.

Modules, one per source file or component:

| module | file | models |
|---|---|---|
| `Wrappers`, `Strings`, `Ordered` | wrappers.dfy, strings.dfy, ordered.dfy | `Result`/`Option`, the string built-ins used, and insertion-ordered `Map`/`Set` |
| `Source` | source.dfy | the host's type graph |
| `Ir` | ir.dfy | `modeler/model.ts` |
| `Common` | common.dfy | `modeler/common.ts` |
| `Responses` | responses.dfy | `modeler/responses.ts` |
| `ModelerParameters` | modeler_parameters.dfy | `modeler/parameters.ts` |
| `Package` | package.dfy | `modeler/package.ts` |
| `Naming` | naming.dfy | `util/naming.ts` |
| `Identifiers` | identifiers.dfy | `generators/identifiers.ts` |
| `Cache` | cache.dfy | `generators/cache.ts` |
| `Interfaces` | interfaces.dfy | `generators/interfaces.ts` |
| `ParameterCode` | gen_parameters.dfy | `generators/parameters.ts` |
| `ResponseCode` | gen_response.dfy | `generators/response.ts` |
| `OperationCode` | operation.dfy | `generators/operation.ts` |
| `ImportsCode` | imports.dfy | `generators/imports.ts` |
| `ClientCode` | client.dfy | `generators/client.ts` and `generators/sourceFile.ts` |
| `UrlHelpers` | url_helpers.dfy | `packages/client/src/urlHelpers.ts` |

Where the code and its documented intent differ, the model follows the code:

- `nameToIdentifier` is not idempotent. `"^A"` becomes `"A"`, which becomes `"a"`. A
  result can also start with a digit: `"-1"` becomes `"1"`. See `Naming.NotIdempotent`.
- A union whose options all fail to translate is still a union, with no options. It is
  not a failure. See `Common.CreateUnionOptions`.
- `getParseResponse` emits the handlers in declaration order. A response without status
  codes, the default handler, is not moved last, so a default handler declared first
  hides every handler after it. See `ResponseCode.HandlersToTypeScript`.
- A response with neither a body nor headers gives a bare `return;` before its status
  codes are looked at. So a void response with status codes returns for every status,
  and the handlers and fallback after it cannot be reached. See `ResponseCode.HandlerText`,
  whose `return;` case does not depend on the codes.
- The fallback for an unknown status code ends with a `}` after its `throw` statement.
  That `}` closes the method body, so the generated class has one closing brace too many
  for every operation without a default response. The model emits that brace as written.
  See `ResponseCode.FallbackClosesBlock`.
- The response body is flattened by the emitter (`generators/response.ts`), not the
  modeler. Only one level is flattened. See `ResponseCode.FlattenOneLevel`.
- A client is named after its route group with the suffix `GeneratedClient`.

## Model

| member | source | states |
|---|---|---|
| Naming.NameToIdentifier | packages/emitter/src/util/naming.ts:8-22 | fails (RangeError) exactly on the empty name; every character of a result is an ASCII letter, digit or `$`; a name starting with a digit gives a result starting with `$` |
| Naming.CapitalizeFirstLetter | packages/emitter/src/util/naming.ts:50-57 | same length; the first character upper-cased and the rest unchanged; the empty string stays empty |
| Naming.LowercaseFirstLetter | packages/emitter/src/util/naming.ts:59-66 | same length; the first character lower-cased and the rest unchanged |
| Naming.RemoveInvalid | packages/emitter/src/util/naming.ts:21 | keeps only letters, digits, `_` and `$`, never lengthens, and leaves a string of such characters unchanged |
| Naming.ReplaceSeparatorAlphabet | packages/emitter/src/util/naming.ts:24-48 | no `-` or `_` survives separator replacement |
| Naming.ReplaceSeparatorKeepsDollar | packages/emitter/src/util/naming.ts:15-19 | the `$` put in front of a leading digit survives separator replacement |
| Naming.CamelCaseBySegments | packages/emitter/src/util/naming.ts:24-48 | the split / lowercase / capitalise / join pipeline equals an independent one-pass camelCase conversion (`CamelCase`) |
| Naming.NameToIdentifierIsCamelCase | packages/emitter/src/util/naming.ts:8-48 | for every non-empty name: a mixed-case token without separators only has its first letter lowered; every other name is the one-pass camelCase of the `$`-prefixed name, with invalid characters deleted |
| Naming.LowerTokenUnchanged | packages/emitter/src/util/naming.ts:28-36 | a token of a-z, 0-9 and `$` comes back unchanged, apart from the `$` prefix |
| Naming.UpperTokenLowercased | packages/emitter/src/util/naming.ts:28-30 | a token of A-Z, 0-9 and `$` is lower-cased entirely |
| Naming.SegmentsCamelCased | packages/emitter/src/util/naming.ts:39-47 | with separators, the first segment is lower-cased and every later one lower-cased with a capital first letter |
| Naming.SeparatedName | packages/emitter/src/util/naming.ts:8-48 | a name with a separator and no leading digit gives the one-pass camelCase with invalid characters deleted |
| Naming.MixedCaseToken | packages/emitter/src/util/naming.ts:31-33 | a mixed-case token without separators only has its first character lower-cased |
| Naming.NotIdempotent | packages/emitter/src/util/naming.ts:8-48 | `"^A"` gives `"A"`, which gives `"a"`, so the conversion is not idempotent; `"-1"` gives `"1"`, which starts with a digit |
| Naming.TestLowerUnchanged | packages/emitter/test/naming.spec.ts:11-13 | `"foo"` gives `"foo"` |
| Naming.TestSeparatedNames | packages/emitter/test/naming.spec.ts:15-21 | `"foo-bar-baz"` and `"foo_bar_baz"` both give `"fooBarBaz"` |
| Naming.TestPascalCase | packages/emitter/test/naming.spec.ts:23-25 | `"SomeName"` gives `"someName"` |
| Naming.TestAllUpper | packages/emitter/test/naming.spec.ts:27-29 | `"ALL_UPPER"` gives `"allUpper"` |
| Naming.TestUpperWithoutSeparator | packages/emitter/test/naming.spec.ts:31-33 | `"HELLO"` gives `"hello"` |
| Naming.TestInvalidCharacterRemoved | packages/emitter/test/naming.spec.ts:35-37 | `"foo^bar"` gives `"foobar"` |
| Naming.TestLeadingDigit | packages/emitter/test/naming.spec.ts:39-41 | `"1fear"` gives `"$1fear"` |
| Identifiers.QuoteNameIfNeeded | packages/emitter/src/generators/identifiers.ts:4-10 | unchanged exactly when the name is a non-empty run of `[A-Za-z0-9_]`; otherwise the name inside double quotes; quoting keeps bareness |
| Identifiers.UnquoteQuote | packages/emitter/src/generators/identifiers.ts:4-10 | the inverse: removing the added quotes gives back every name |
| Identifiers.QuoteBareFixed | packages/emitter/src/generators/identifiers.ts:4-10 | quoting a bare name twice is quoting it once |
| Identifiers.RequoteQuoted | packages/emitter/src/generators/identifiers.ts:4-10 | quoting a non-bare name twice adds a second pair of quotes, so quoting is not idempotent |
| Identifiers.TestQuoted | packages/emitter/src/generators/identifiers.ts:4-10 | `odata.type`, the empty name and `x-ms-id` are quoted |
| Identifiers.TestBare | packages/emitter/src/generators/identifiers.ts:4-10 | `snake_Case9` is left bare |
| UrlHelpers.SetSearch | packages/client/src/urlHelpers.ts:39 | the `search` setter leaves the pathname alone and leaves a getter-form search ("" or "?" + query) |
| UrlHelpers.SetSearchThenGet | packages/client/src/urlHelpers.ts:39 | reading back a set query gives "?" + query; a leading "?" in the value is not doubled |
| UrlHelpers.SetSearchOwnValue | packages/client/src/urlHelpers.ts:39 | writing back the search just read changes nothing |
| UrlHelpers.WithTrailingSlash | packages/client/src/urlHelpers.ts:25-27 | the pathname extended by at most one character so that it ends in "/" |
| UrlHelpers.WithoutLeadingSlash | packages/client/src/urlHelpers.ts:29-31 | exactly one leading "/" removed, if there is one |
| UrlHelpers.AppendPath | packages/client/src/urlHelpers.ts:22-46 | the new pathname extends the slash-terminated old one with no "?" in the appended part; a path without "?" only changes the pathname |
| UrlHelpers.AppendPathEffect | packages/client/src/urlHelpers.ts:22-46 | the pathname gets the part before the first "?"; a non-empty query after it becomes the search, or is joined to an existing search with "&" |
| UrlHelpers.AppendPathLeadingSlash | packages/client/src/urlHelpers.ts:29-31 | a leading "/" on the path makes no difference |
| UrlHelpers.AppendPathTwice | packages/client/src/urlHelpers.ts:22-46 | appending `a` then `b` equals appending `a/b` |
| UrlHelpers.PairsOfEntry | packages/client/src/urlHelpers.ts:53-61 | an array value gives one pair per element, a string one pair, undefined none |
| UrlHelpers.EntryPieces | packages/client/src/urlHelpers.ts:53-61 | the pieces one entry adds are the `name=value` texts of its pairs |
| UrlHelpers.SearchPieces | packages/client/src/urlHelpers.ts:52-62 | the loop collects `name=value` for every pair, in entry order |
| UrlHelpers.AppendQueryParams | packages/client/src/urlHelpers.ts:48-65 | the search is replaced: empty exactly when there is no pair, else "?" + the pieces joined by "&"; the pathname is kept |
| UrlHelpers.ParsePieceRoundTrip | packages/client/src/urlHelpers.ts:57-60 | splitting a piece at its first "=" gives the pair back when the name has no "=" |
| UrlHelpers.QueryRoundTrip | packages/client/src/urlHelpers.ts:48-65 | parsing the joined query gives back exactly the pairs, when names hold no "=" or "&" and values no "&" |
| UrlHelpers.GetRequestUrl | packages/client/src/urlHelpers.ts:9-20 | a non-empty path is appended, then the query parameters, when given, replace the search; without them the result is `AppendPath` or the base |
| UrlHelpers.PathQueryDiscarded | packages/client/src/urlHelpers.ts:9-20 | when query parameters are given, a query written into the path is lost: paths that differ only after "?" give the same URL |
| UrlHelpers.ExamplePairs | packages/client/src/urlHelpers.ts:53-61 | `{a: ["1","2"], b: undefined, c: "x,y"}` gives the pairs a=1, a=2, c=x,y |
| UrlHelpers.ExampleSearch | packages/client/src/urlHelpers.ts:63-64 | those pairs give the query `a=1&a=2&c=x,y`, comma unencoded |
| UrlHelpers.ExampleQuery | packages/client/src/urlHelpers.ts:48-65 | appending those parameters to any URL gives the search `?a=1&a=2&c=x,y` |
| Ir.VerbText | packages/emitter/src/modeler/model.ts:55 | the verb text is a non-empty upper-case word |
| Ir.VerbTextInjective | packages/emitter/src/modeler/model.ts:55 | distinct verbs have distinct texts |
| Source.AllModelProperties | packages/emitter/src/modeler/common.ts:180-185 | the base model's properties first and the model's own last; without a base, the own properties |
| Source.FindProp | packages/emitter/src/modeler/common.ts:139 | the property named `v` when there is one, else none |
| Common.IntrinsicScalar | packages/emitter/src/modeler/common.ts:45-81 | `boolean` gives boolean; the eleven number names give number; `string` and `zonedDateTime` give string; every other intrinsic fails |
| Common.CreateRestType | packages/emitter/src/modeler/common.ts:28-136 | the result is the stateless reference translation under the cache left behind; it succeeds exactly when the node is translatable, whatever the cache; caches only grow and every model node built is complete |
| Common.CreateMapType | packages/emitter/src/modeler/common.ts:138-150 | a `Map` is a map type over the translation of its `v` property, and fails when `v` is missing or fails |
| Common.CreateUnionOptions | packages/emitter/src/modeler/common.ts:118-131 | the options' translations in order, failing options dropped |
| Common.CreateModelType | packages/emitter/src/modeler/common.ts:83-102 | an uncached plain model gets the next node index; it is cached before its properties are walked and is complete afterwards |
| Common.CreateModelProperty | packages/emitter/src/modeler/common.ts:152-178 | the reference property of the source property under the final cache; none exactly when its type does not translate |
| Common.PropertyFrom | packages/emitter/src/modeler/common.ts:156-174 | name, optionality and type are copied; `@header` wins over `@body`; the serialized name is kept only for headers |
| Common.WalkProperties | packages/emitter/src/modeler/common.ts:96-101 | the property map is the reference map: translatable properties set in order, a later one replacing an earlier one of the same name |
| Common.TranslationMono | packages/emitter/src/modeler/common.ts:83-86 | once a node is settled, a larger cache does not change its translation |
| Common.SettledTranslates | packages/emitter/src/modeler/common.ts:28-136 | a settled node translates exactly when it is translatable |
| Common.EvolvesModelsDone | packages/emitter/src/modeler/common.ts:83-102 | a translator step keeps every cached model node complete |
| Common.EmptyContextOk | packages/emitter/src/modeler/common.ts:83-86 | the empty modeler context meets the cache invariant |
| Responses.NonStatus | packages/emitter/src/modeler/responses.ts:47-56 | the non-status-code properties, in order |
| Responses.CodesOfAppend | packages/emitter/src/modeler/responses.ts:47-50 | status codes follow the property order, base model first |
| Responses.CreateResponseFromModel | packages/emitter/src/modeler/responses.ts:29-60 | a cached model returns its response id with the context unchanged; otherwise a new response node at the next index, holding exactly the reference response (name, discriminator, error flag, non-status properties, status codes) |
| Responses.ResponseCachedOnce | packages/emitter/src/modeler/responses.ts:30-33 | a second call for the same model returns the same id and state |
| Responses.CachedResponseContent | packages/emitter/src/modeler/responses.ts:29-60 | in a finished context every cached response holds exactly its reference contents |
| Responses.AdvancesDone | packages/emitter/src/modeler/responses.ts:11-60 | a modeler step keeps every cached model and response complete |
| Responses.EmptyContextDone | packages/emitter/src/modeler/responses.ts:29-33 | the empty context is finished, so a whole package starts from a valid state |
| Responses.ResponseLeaves | packages/emitter/src/modeler/responses.ts:11-27 | the model leaves of a union tree are models |
| Responses.GetResponses | packages/emitter/src/modeler/responses.ts:11-27 | the ids answer, in order, the model leaves of the union tree; other kinds contribute nothing |
| Responses.NestedUnionFlattens | packages/emitter/src/modeler/responses.ts:15-20 | a union of a model and a union of two models gives the three models in order |
| ModelerParameters.LocationOf | packages/emitter/src/modeler/parameters.ts:29 | a route parameter is never a body parameter |
| ModelerParameters.LocationOfBijective | packages/emitter/src/modeler/parameters.ts:29 | route locations map one-to-one onto header, query and path |
| ModelerParameters.KeptExactly | packages/emitter/src/modeler/parameters.ts:24-36 | a route parameter survives exactly when its type translates |
| ModelerParameters.RouteParamsAllKept | packages/emitter/src/modeler/parameters.ts:24-36 | when every type translates, every route parameter appears, in order |
| ModelerParameters.BodyFirst | packages/emitter/src/modeler/parameters.ts:12-22 | the only body parameter is the first entry, present exactly when the body's type translates |
| ModelerParameters.GetParameters | packages/emitter/src/modeler/parameters.ts:9-39 | the parameters are the reference list under the final cache: the body, then the route parameters with untranslatable ones dropped |
| Package.RestVerbToOperationVerb | packages/emitter/src/modeler/package.ts:42-45 | the verb's text is the route verb upper-cased |
| Package.OperationVerbInjective | packages/emitter/src/modeler/package.ts:42-45 | distinct route verbs give distinct verbs, never OPTIONS or TRACE |
| Package.CreateOperationFromRoute | packages/emitter/src/modeler/package.ts:31-40 | name, path and verb from the route; reference parameters; responses answering the return type's model leaves |
| Package.CreateOperations | packages/emitter/src/modeler/package.ts:14-25 | one operation per route, in route order, with one context threaded through |
| Package.SharedResponses | packages/emitter/src/modeler/package.ts:36 | routes with the same return type get the same response ids |
| Package.ClientName | packages/emitter/src/modeler/package.ts:19 | the group name followed by `GeneratedClient` |
| Package.AddOperationGet | packages/emitter/src/modeler/package.ts:16-24 | filing adds a client for a new group, appends to the group's client otherwise, and leaves other groups alone |
| Package.OpsOfExactly | packages/emitter/src/modeler/package.ts:14-25 | an operation is in a group's client exactly when a route of that group produced it |
| Package.CreatePackage | packages/emitter/src/modeler/package.ts:11-29 | one client per distinct group; the arenas are the context's; the context advances |
| Package.PackageClients | packages/emitter/src/modeler/package.ts:11-29 | clients keyed by group in order of first appearance, each holding its group's operations in route order, one operation per route in all |
| Package.GroupedClients | packages/emitter/src/modeler/package.ts:14-25 | grouping keys the clients by distinct group in first-appearance order, and each holds exactly its group's operations |
| Package.PackageDone | packages/emitter/src/modeler/package.ts:11-29 | a package built from a finished context leaves it finished |
| Cache.Put | packages/emitter/src/generators/cache.ts:12-17 | `Map.set`: the entry is stored and its key is appended to the order when new |
| Cache.PutIsSet | packages/emitter/src/generators/cache.ts:12-17 | the cache seen as an ordered map is updated by `Map.set` |
| Cache.FreshClientContext | packages/emitter/src/generators/client.ts:17-22 | both caches and both import sets start empty |
| Cache.AddImportGrows | packages/emitter/src/generators/cache.ts:15-16 | adding an import only adds, and the name is then present |
| Interfaces.ScalarText | packages/emitter/src/generators/interfaces.ts:69-73 | the constant when there is one (a string constant quoted), else the kind name |
| Interfaces.RestTypeToTypeScript | packages/emitter/src/generators/interfaces.ts:67-85 | the text equals the stateless rendering of the type over the cache left behind; entries only grow and every new one has its text |
| Interfaces.OptionsToTypeScript | packages/emitter/src/generators/interfaces.ts:100-102 | every option rendered over the final cache, in order |
| Interfaces.PropertiesToTypeScript | packages/emitter/src/generators/interfaces.ts:47-49 | every property rendered over the final cache, in order |
| Interfaces.ModelTypeToTypeScript | packages/emitter/src/generators/interfaces.ts:26-58 | a hit shows the inline text or the name, state unchanged; a miss stores the model's interface, named or inline, with its properties rendered |
| Interfaces.ModelPropertyToTypeScript | packages/emitter/src/generators/interfaces.ts:60-65 | `name sep type`, with the quoted name, `?:` when optional, and the rendered type |
| Interfaces.RenderTwice | packages/emitter/src/generators/interfaces.ts:26-34 | rendering a type again returns the same text and state |
| Interfaces.InterfaceText | packages/emitter/src/generators/interfaces.ts:51-56 | an interface text is never empty |
| Interfaces.SelfReference | packages/emitter/src/generators/interfaces.ts:36-49 | a property typed with the model being rendered shows the model's name, which is empty for an inline model |
| Interfaces.RecursiveNamedModel | packages/emitter/src/generators/interfaces.ts:26-58 | a named self-referencing model is rendered once, as `export interface Node { next ?: Node }` |
| Interfaces.RecursiveInlineModel | packages/emitter/src/generators/interfaces.ts:38-53 | an inline self-referencing model renders its reference as empty text: `{ self :  }` |
| Interfaces.DeclaredTexts | packages/emitter/src/generators/interfaces.ts:16-18 | exactly the texts of the non-inline entries |
| Interfaces.CreateInterfaces | packages/emitter/src/generators/interfaces.ts:15-24 | the non-inline interfaces in insertion order, a blank line, then every response interface in insertion order |
| ParameterCode.Identifier | packages/emitter/src/generators/parameters.ts:101-106 | same length; every character outside `[A-Za-z0-9_$]` becomes `_`, the others stay |
| ParameterCode.IdentifierFixed | packages/emitter/src/generators/parameters.ts:101-106 | a name is unchanged exactly when all its characters are allowed |
| ParameterCode.IdentifierIdempotent | packages/emitter/src/generators/parameters.ts:101-106 | applying it twice is applying it once |
| ParameterCode.TestIdentifier | packages/emitter/src/generators/parameters.ts:105 | `foo-bar.baz` gives `foo_bar_baz`; `x$1` is unchanged |
| ParameterCode.QuotedIsNoIdentifier | packages/emitter/src/generators/parameters.ts:30-32 | the quoted name equals the identifier exactly when the name is bare, so shorthand is used exactly then |
| ParameterCode.OfLocation | packages/emitter/src/generators/parameters.ts:21 | exactly the parameters of one location, in order |
| ParameterCode.LocationsPartition | packages/emitter/src/generators/parameters.ts:9-106 | every parameter lands in exactly one of the four code sections |
| ParameterCode.ParametersToTypeScript | packages/emitter/src/generators/parameters.ts:13-18 | one `name?: type` entry per parameter, rendered over the final cache |
| ParameterCode.CreateOperationParams | packages/emitter/src/generators/parameters.ts:9-11 | those entries joined by ", " |
| ParameterCode.PathEntry | packages/emitter/src/generators/parameters.ts:28-33 | the bare name alone, or the quoted name, ": " and the identifier |
| ParameterCode.GetPathFromParameters | packages/emitter/src/generators/parameters.ts:20-37 | the quoted path when there is no path parameter, state unchanged; else a `replacePathParameters` call over the entries, with the helper imported |
| ParameterCode.PathImport | packages/emitter/src/generators/parameters.ts:23-27 | the helper is imported exactly when there is a path parameter, or it was imported before |
| ParameterCode.HeaderStatement | packages/emitter/src/generators/parameters.ts:42-51 | a header is set unconditionally, or inside `if (identifier)` exactly when optional |
| ParameterCode.GetHeadersFromParameters | packages/emitter/src/generators/parameters.ts:39-54 | the statements of the header parameters joined by newlines; empty exactly when there is none |
| ParameterCode.HeadersAppend | packages/emitter/src/generators/parameters.ts:39-54 | one more header parameter adds one line with its statement at the end |
| ParameterCode.StringifyParamIfNeeded | packages/emitter/src/generators/parameters.ts:68-87 | fails exactly on non-string arrays, models and maps, with the source's messages; otherwise the identifier, wrapped in `stringifyQueryParam` for booleans, numbers and unions with a non-string option |
| ParameterCode.QueryShorthand | packages/emitter/src/generators/parameters.ts:59-63 | an entry is shorthand exactly when the name is bare and the value is not wrapped |
| ParameterCode.QueryEntries | packages/emitter/src/generators/parameters.ts:57-64 | one entry per query parameter, or the error of the first unsupported one |
| ParameterCode.GetQueryParamsFromParameters | packages/emitter/src/generators/parameters.ts:56-66 | fails exactly when some query parameter is unsupported, with the first one's error; else the entries joined by "," in braces |
| ParameterCode.FirstBody | packages/emitter/src/generators/parameters.ts:90 | the first body parameter, if any |
| ParameterCode.GetBody | packages/emitter/src/generators/parameters.ts:89-99 | empty exactly when there is no body parameter; else the `JSON.stringify` assignment of the first one |
| ResponseCode.FlattenBody | packages/emitter/src/generators/response.ts:33-40 | every non-body-model property is kept, and nothing else appears but the properties of body models |
| ResponseCode.FlattenBodyAppend | packages/emitter/src/generators/response.ts:33-40 | flattening distributes over concatenation, so order is kept |
| ResponseCode.FlattenOneLevel | packages/emitter/src/generators/response.ts:33-40 | a body model is replaced by exactly its own properties; a body model among those stays unflattened |
| ResponseCode.ResponseToTypeScript | packages/emitter/src/generators/response.ts:13-46 | a cached response's name with the state unchanged; else `<operation>Response`, stored with its interface over the flattened properties; the imports are unchanged |
| ResponseCode.SharedResponseName | packages/emitter/src/generators/response.ts:18-21 | a response shared by two operations keeps the first operation's name |
| ResponseCode.WithHeader | packages/emitter/src/generators/response.ts:78-79 | exactly the header, or the non-header, properties, in order |
| ResponseCode.BodyProperty | packages/emitter/src/generators/response.ts:80-84 | the first `body` property, else the only non-header property, else none |
| ResponseCode.ParseBodyText | packages/emitter/src/generators/response.ts:89-94 | empty exactly when there is no body; else the body parsed as its rendered type into `parsedResponse` when headers exist and into `result` otherwise |
| ResponseCode.ParseHeadersText | packages/emitter/src/generators/response.ts:96-105 | empty exactly when there are no headers; else the `result` object, spreading the parsed body when there is one, then the header entries joined by "," |
| ResponseCode.HeaderEntriesPerHeader | packages/emitter/src/generators/response.ts:66-72 | one `getHeader` entry per header property, in order, each under the property's quoted name, which unquotes back to the name |
| ResponseCode.ParseBodyScoping | packages/emitter/src/generators/response.ts:89-94 | the body statement declares `parsedResponse` exactly when there are both a body and headers, and `result` exactly when there is a body and no headers |
| ResponseCode.ParseHeadersScoping | packages/emitter/src/generators/response.ts:96-105 | the header object declares `result` exactly when there are headers, and spreads `parsedResponse` exactly when there is also a body |
| ResponseCode.ParseCodeScoping | packages/emitter/src/generators/response.ts:89-105 | the generated code is well scoped: `parsedResponse` is declared exactly when it is spread, and in a non-void handler exactly one statement declares `result` |
| ResponseCode.ParseCode | packages/emitter/src/generators/response.ts:106-111 | the body statement, the header statement and the final statement, each on its own line; it throws the result for an error response and returns it otherwise |
| ResponseCode.HandlerText | packages/emitter/src/generators/response.ts:75-121 | `return;` exactly for a void response; the bare code without status codes; else exactly the status test (`=== code`, or `[codes].includes` for several codes), a newline, the parsing code, and the closing brace |
| ResponseCode.GuardedShape | packages/emitter/src/generators/response.ts:112-120 | a guarded handler starts with its `if` head and ends with the handler code and the closing brace |
| ResponseCode.GetParseResponseForStatus | packages/emitter/src/generators/response.ts:75-121 | the handler text over the final cache; `getHeader` imported exactly when the response has header properties |
| ResponseCode.HandlersToTypeScript | packages/emitter/src/generators/response.ts:57-59 | one handler per response, in declaration order |
| ResponseCode.GetParseResponse | packages/emitter/src/generators/response.ts:48-64 | the handlers joined by newlines, ending with the unknown-code throw exactly when no response is a default; `RestError` imported exactly then |
| ResponseCode.FallbackClosesBlock | packages/emitter/src/generators/response.ts:53-56 | the fallback's `throw` statement is followed by a closing brace, which ends the method body early |
| ResponseCode.FallbackEnd | packages/emitter/src/generators/response.ts:53-63 | the text ends with the throw exactly when there is no default handler |
| OperationCode.RequestMethod | packages/emitter/src/generators/operation.ts:18 | empty exactly for GET; else a `method:` line naming the verb |
| OperationCode.NonErrorIds | packages/emitter/src/generators/operation.ts:44-45 | exactly the non-error responses, in order |
| OperationCode.ResponseNamesToTypeScript | packages/emitter/src/generators/operation.ts:43-48 | each name is the cached one, or `<operation>Response` for a response first seen here; the imports are unchanged |
| OperationCode.CreateReturnType | packages/emitter/src/generators/operation.ts:43-48 | the non-error responses' names joined by " \| " |
| OperationCode.CreateOperation | packages/emitter/src/generators/operation.ts:15-41 | fails exactly when a query parameter is unsupported, with its error; else the method text over the state left behind, the imports the operation needs added, and the non-error responses cached |
| OperationCode.MethodTextMono | packages/emitter/src/generators/operation.ts:15-41 | a method's text does not change as later operations grow the caches |
| ClientCode.TextsMono | packages/emitter/src/generators/client.ts:23 | method texts read off one state still read the same off any state whose caches have grown |
| ClientCode.FirstUnsupported | packages/emitter/src/generators/client.ts:23 | the first operation whose query cannot be written, if any |
| ClientCode.CreateOperations | packages/emitter/src/generators/client.ts:23 | fails with the first unsupported operation's error; else one method text per operation, each as read off the final state |
| ClientCode.SourceFile | packages/emitter/src/generators/sourceFile.ts:4-10 | the file header, then the text and a newline |
| ClientCode.ClientText | packages/emitter/src/generators/client.ts:26-38 | the file body is the import block, then the interfaces, then the class named after the client, which ends with the method texts and the closing brace |
| ClientCode.ClassEnds | packages/emitter/src/generators/sourceFile.ts:4-10 | a class text put in a source file ends with "}" and a newline |
| ClientCode.FinalState | packages/emitter/src/generators/client.ts:15-39 | `RestError`, `replacePathParameters` and `getHeader` are imported exactly when some operation needs them; no import twice; the response cache holds exactly the non-error responses |
| ClientCode.CreateClient | packages/emitter/src/generators/client.ts:15-39 | fails exactly when some operation has an unsupported query parameter; else the source file of imports, interfaces and the methods in order, over a state meeting `FinalState` |
| ImportsCode.CorePipelineImports | packages/emitter/src/generators/imports.ts:7-11 | the two fixed names, then the added ones in insertion order |
| ImportsCode.ClientLibImports | packages/emitter/src/generators/imports.ts:12-20 | the six fixed names, then the added ones in insertion order |
| ImportsCode.ImportLine | packages/emitter/src/generators/imports.ts:21-22 | `import { names } from "module";` with the names joined by "," |
| ImportsCode.ImportLineNames | packages/emitter/src/generators/imports.ts:21-22 | splitting the braces' content at "," gives back the names |
| ImportsCode.CreateImports | packages/emitter/src/generators/imports.ts:6-24 | the core-pipeline line followed by the client-library line |
| ImportsCode.ImportsDistinct | packages/emitter/src/generators/imports.ts:6-24 | neither line names an import twice |

## Left out

- CreateRestType: number constants are modelled as unbounded integers. Fractions, NaN, infinities and the rest of IEEE-754 doubles are not represented.
- RestTypeToTypeScript: a number constant is written with `IntToString`, which agrees with JavaScript's `String(n)` on integers below 10^21 only. `String(1.5)` is `"1.5"` and `String(1e21)` is `"1e+21"`, and neither is modelled.
- NameToIdentifier: `toLowerCase`/`toUpperCase` map only ASCII letters. JavaScript applies full Unicode case mapping, so `"a-ſ"` becomes `"aS"` there and `"a"` here.
- CapitalizeFirstLetter: only an ASCII first letter is upper-cased, so "same length" holds here but not in JavaScript, where `"ß".toUpperCase()` is `"SS"`.
- LowercaseFirstLetter: only an ASCII first letter is lower-cased. JavaScript's Unicode mapping can also change the length, e.g. `"İ".toLowerCase()` has two code units.
- Identifier: the replacement works per Dafny character, while the JavaScript regular expression works per UTF-16 code unit. `"a😀"` gives `"a__"` in JavaScript and `"a_"` here.
- AppendPath: the WHATWG `pathname` setter's percent-encoding and dot-segment normalisation are not modelled. The pathname is stored as given.
- AppendQueryParams: the WHATWG `search` setter's percent-encoding is not modelled. Only its handling of a leading "?" and of the empty string is.
- GetRequestUrl: parsing of `base` by `new URL` and serialisation by `url.toString()` are not modelled. The URL is its pathname and search, and the result is the URL, not its string.
- ClientText: the indentation of the class body (the fields, the constructor, and the two spaces before the method texts) is not reproduced. The lines and their order are.
- SourceFile: the copyright and licence comment is a constant whose wording is left unspecified. Every property holds for any header text.
- CreateOperation: the template's indentation is not reproduced. The method text keeps the template's line structure and content, but not its leading spaces.
- GetHeadersFromParameters: the indentation inside the optional-header `if` block is not reproduced.
- ParseCode: the `// TODO: call onResponse` comment line (response.ts:109) and the indentation of the header object are not reproduced.
- GetParseResponse: the fallback drops the `// TODO: call onResponse` comment line (response.ts:55), because a comment has no effect on the generated code's behaviour.
- Diagnostics: `error` and `warn` reports to the host program are dropped. A failed translation is `None`, and an unhandled response kind contributes no response.
- Host predicates: the host compiler's answers (intrinsic names, `@header` with its field name, `@body`, `@statusCode` with its codes, `@error`, `@discriminator`) are plain fields of the source graph. `getRoutes` is an input list of routes.
- Cycles: the source graph is assumed ranked, so array elements, union options and base models never lead back to the node that refers to them. Cycles are allowed only through the properties of plain models. `createRestType` would recurse forever on the other cycles, and the host compiler's own circularity checks rule them out before the emitter runs.
- CreatePackage: modelled as two passes, creating all operations and then filing them by group. The single loop is equivalent: filing reads no context, and creating an operation reads no client map.
- The caches are keyed by node identity. Here identity is a node's index in its arena, and `WeakMap` garbage collection is not modelled.
- `restTypeToTypeScript`'s "Unknown RestType" throw cannot happen on the closed `RestType` datatype, so it is not modelled.
- The emitter entry point (`$onEmit`, writing files, formatting with prettier), `util/log.ts`, and the client runtime apart from `urlHelpers.ts` (pipeline, `makeRequest`, `tryParseResponse`, `getHeader`, `replacePathParameters`, `stringifyQueryParam`) are not part of this model.
