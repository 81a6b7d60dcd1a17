/** `createPackage`, `createOperationFromRoute` and `restVerbToOperationVerb` of
    packages/emitter/src/modeler/package.ts.

    Every route becomes one operation; the operations are grouped into one client per
    group name, in order of first appearance. All routes share one context, so a model
    or response reachable from several routes is translated once.

    The source runs one loop that both creates each route's operation and files it
    under its group. Filing reads nothing the operation creation writes and the other
    way round, so the model runs the two as separate passes: `CreateOperations` threads
    the context through the routes, `GroupOperations` files the results. */
module Package {
  import opened Wrappers
  import opened Strings
  import opened Ordered
  import opened Ir
  import opened Source
  import opened Common
  import opened Responses
  import opened ModelerParameters

  // ---------------------------------------------------------------------------
  // Verbs

  /** The REST library's lower-case verbs. */
  datatype RestVerb = RestGet | RestPut | RestPost | RestPatch | RestDelete | RestHead

  function RestVerbText(v: RestVerb): (r: string)
    ensures r != [] && forall i :: 0 <= i < |r| ==> IsLower(r[i])
  {
    match v
    case RestGet => "get"
    case RestPut => "put"
    case RestPost => "post"
    case RestPatch => "patch"
    case RestDelete => "delete"
    case RestHead => "head"
  }

  /** `restVerbToOperationVerb`: the verb upper-cased. */
  function RestVerbToOperationVerb(v: RestVerb): (r: HttpVerb)
    ensures VerbText(r) == Upper(RestVerbText(v))
  {
    match v
    case RestGet => GET
    case RestPut => PUT
    case RestPost => POST
    case RestPatch => PATCH
    case RestDelete => DELETE
    case RestHead => HEAD
  }

  /** Distinct REST verbs give distinct operation verbs, and OPTIONS and TRACE are
      never produced. */
  lemma OperationVerbInjective(v: RestVerb, w: RestVerb)
    ensures RestVerbToOperationVerb(v) == RestVerbToOperationVerb(w) <==> v == w
    ensures RestVerbToOperationVerb(v) != OPTIONS && RestVerbToOperationVerb(v) != TRACE
  {
  }

  // ---------------------------------------------------------------------------
  // Routes

  /** A route as the REST library lists it. */
  datatype Route = Route(
    groupName: string,
    operationName: string,
    path: string,
    verb: RestVerb,
    parameters: RouteParams,
    returnType: SrcId)

  ghost predicate RouteIn(g: Graph, route: Route) {
    ParamsIn(g, route.parameters) && route.returnType in g
  }

  ghost predicate RoutesIn(g: Graph, routes: seq<Route>) {
    forall route :: route in routes ==> RouteIn(g, route)
  }

  /** What the operation of `route` holds in context `ctx`: the name, path and verb of the
      route, the parameters the reference gives, and the responses of the return type's
      model leaves. */
  ghost predicate OperationOk(g: Graph, ctx: Context, route: Route, op: Operation) {
    WellFormed(g) && RouteIn(g, route) &&
    op.name == route.operationName && op.path == route.path &&
    op.verb == RestVerbToOperationVerb(route.verb) &&
    ParamsSettled(g, ctx.modelCache, route.parameters) &&
    op.parameters == ExpectedParams(g, ctx.modelCache, route.parameters) &&
    Answers(ctx, ResponseLeaves(g, route.returnType), op.responses)
  }

  lemma OperationOkMono(g: Graph, c1: Context, c2: Context, route: Route, op: Operation)
    requires OperationOk(g, c1, route, op) && Grows(c1, c2)
    ensures OperationOk(g, c2, route, op)
  {
    ExpectedParamsMono(g, c1.modelCache, c2.modelCache, route.parameters);
    AnswersMono(c1, c2, ResponseLeaves(g, route.returnType), op.responses);
  }

  /** `createOperationFromRoute`: parameters first, then responses. */
  function CreateOperationFromRoute(g: Graph, ctx: Context, route: Route): (r: Threaded<Operation>)
    requires WellFormed(g) && RouteIn(g, route) && CtxOk(g, ctx)
    ensures Advances(g, ctx, r.ctx)
    ensures OperationOk(g, r.ctx, route, r.value)
  {
    var params := GetParameters(g, ctx, route.parameters);
    EvolvesAdvances(g, ctx, params.ctx);
    var responses := GetResponses(g, params.ctx, route.returnType);
    AdvancesTrans(g, ctx, params.ctx, responses.ctx);
    ExpectedParamsMono(g, params.ctx.modelCache, responses.ctx.modelCache, route.parameters);
    Threaded(Operation(route.operationName, route.path, params.value, responses.value, RestVerbToOperationVerb(route.verb)),
             responses.ctx)
  }

  /** The operations `ops` are those of `routes`, position by position, in context
      `ctx`. */
  ghost predicate OperationsOk(g: Graph, ctx: Context, routes: seq<Route>, ops: seq<Operation>) {
    |ops| == |routes| && forall i :: 0 <= i < |routes| ==> OperationOk(g, ctx, routes[i], ops[i])
  }

  /** The operations of the routes, in route order, with one context threaded through. */
  function CreateOperations(g: Graph, ctx: Context, routes: seq<Route>): (r: Threaded<seq<Operation>>)
    requires WellFormed(g) && RoutesIn(g, routes) && CtxOk(g, ctx)
    ensures Advances(g, ctx, r.ctx)
    ensures OperationsOk(g, r.ctx, routes, r.value)
    decreases |routes|
  {
    if routes == [] then
      AdvancesRefl(g, ctx);
      Threaded([], ctx)
    else
      assert routes[0] in routes;
      var first := CreateOperationFromRoute(g, ctx, routes[0]);
      var rest := CreateOperations(g, first.ctx, routes[1..]);
      AdvancesTrans(g, ctx, first.ctx, rest.ctx);
      OperationsStep(g, first.ctx, rest.ctx, routes, first.value, rest.value);
      Threaded([first.value] + rest.value, rest.ctx)
  }

  lemma OperationsStep(g: Graph, c1: Context, c2: Context, routes: seq<Route>, first: Operation, rest: seq<Operation>)
    requires routes != [] && Grows(c1, c2)
    requires OperationOk(g, c1, routes[0], first) && OperationsOk(g, c2, routes[1..], rest)
    ensures OperationsOk(g, c2, routes, [first] + rest)
  {
    OperationOkMono(g, c1, c2, routes[0], first);
    var ops := [first] + rest;
    forall i | 1 <= i < |routes| ensures OperationOk(g, c2, routes[i], ops[i]) {
      TailIndex(routes, i);
      TailIndex(ops, i);
    }
  }

  lemma TailIndex<T>(s: seq<T>, i: int)
    requires 1 <= i < |s|
    ensures s[i] == s[1..][i - 1]
  {
  }

  /** Two routes with the same return type get the same responses: the shared context
      hands out the cached response of each model. */
  lemma SharedResponses(g: Graph, ctx: Context, r1: Route, r2: Route, o1: Operation, o2: Operation)
    requires OperationOk(g, ctx, r1, o1) && OperationOk(g, ctx, r2, o2)
    requires r1.returnType == r2.returnType
    ensures o1.responses == o2.responses
  {
  }

  // ---------------------------------------------------------------------------
  // Grouping routes into clients

  /** The client name of a group. */
  function ClientName(group: string): (r: string)
    ensures |r| == |group| + |"GeneratedClient"| && r[..|group|] == group
  {
    group + "GeneratedClient"
  }

  /** Filing one operation: append it to its group's client, creating the client on the
      first operation of the group. */
  function AddOperation(clients: OrderedMap<string, Client>, group: string, op: Operation): (r: OrderedMap<string, Client>)
  {
    match Get(clients, group)
    case Some(c) => Set(clients, group, c.(operations := c.operations + [op]))
    case None => Set(clients, group, Client(ClientName(group), [op]))
  }

  /** Filing the operations `ops`, where `groups[i]` is the group of `ops[i]`. */
  function GroupOperations(clients: OrderedMap<string, Client>, groups: seq<string>, ops: seq<Operation>): (r: OrderedMap<string, Client>)
    requires |groups| == |ops|
    decreases |groups|
  {
    if groups == [] then clients
    else GroupOperations(AddOperation(clients, groups[0], ops[0]), groups[1..], ops[1..])
  }

  /** The operations of group `n`, in order. */
  function OpsOf(groups: seq<string>, ops: seq<Operation>, n: string): (r: seq<Operation>)
    requires |groups| == |ops|
    ensures |r| <= |ops|
    decreases |groups|
  {
    if groups == [] then []
    else (if groups[0] == n then [ops[0]] else []) + OpsOf(groups[1..], ops[1..], n)
  }

  function GroupNames(routes: seq<Route>): (r: seq<string>)
    ensures |r| == |routes| && forall i :: 0 <= i < |routes| ==> r[i] == routes[i].groupName
  {
    seq(|routes|, i requires 0 <= i < |routes| => routes[i].groupName)
  }

  /** The clients are keyed by group, in order of first appearance. */
  lemma {:induction false} GroupKeys(clients: OrderedMap<string, Client>, groups: seq<string>, ops: seq<Operation>)
    requires |groups| == |ops|
    ensures Keys(GroupOperations(clients, groups, ops)) == AddAll(Keys(clients), groups)
    ensures KeysUnique(clients) ==> KeysUnique(GroupOperations(clients, groups, ops))
    decreases |groups|
  {
    if groups != [] {
      GroupKeys(AddOperation(clients, groups[0], ops[0]), groups[1..], ops[1..]);
    }
  }

  /** The client of group `n` after filing one operation. */
  lemma AddOperationGet(clients: OrderedMap<string, Client>, group: string, op: Operation, n: string)
    ensures n in Keys(AddOperation(clients, group, op)) <==> n in Keys(clients) || n == group
    ensures n != group ==> Get(AddOperation(clients, group, op), n) == Get(clients, n)
    ensures n == group && n in Keys(clients) ==>
      Get(AddOperation(clients, group, op), n) == Some(Get(clients, n).value.(operations := Get(clients, n).value.operations + [op]))
    ensures n == group && n !in Keys(clients) ==>
      Get(AddOperation(clients, group, op), n) == Some(Client(ClientName(n), [op]))
  {
  }

  /** What filing `ops` under `groups` leaves for group `n`: an existing client gains
      the group's new operations at its end; a new group gets a fresh client holding
      them; any other name has no client. */
  function Filed(clients: OrderedMap<string, Client>, groups: seq<string>, ops: seq<Operation>, n: string): Option<Client>
    requires |groups| == |ops|
  {
    if n in Keys(clients) then Some(Get(clients, n).value.(operations := Get(clients, n).value.operations + OpsOf(groups, ops, n)))
    else if n in groups then Some(Client(ClientName(n), OpsOf(groups, ops, n)))
    else None
  }

  /** Filing the first operation under its own group moves it from the list to the
      client. */
  lemma FiledHere(clients: OrderedMap<string, Client>, groups: seq<string>, ops: seq<Operation>, n: string)
    requires |groups| == |ops| && groups != [] && n == groups[0]
    ensures Filed(AddOperation(clients, groups[0], ops[0]), groups[1..], ops[1..], n) == Filed(clients, groups, ops, n)
  {
    AddOperationGet(clients, groups[0], ops[0], n);
    var rest := OpsOf(groups[1..], ops[1..], n);
    assert OpsOf(groups, ops, n) == [ops[0]] + rest;
    if n in Keys(clients) {
      var c := Get(clients, n).value;
      assert c.operations + [ops[0]] + rest == c.operations + OpsOf(groups, ops, n);
    }
  }

  /** Filing the first operation under another group leaves group `n` as it was. */
  lemma FiledElsewhere(clients: OrderedMap<string, Client>, groups: seq<string>, ops: seq<Operation>, n: string)
    requires |groups| == |ops| && groups != [] && n != groups[0]
    ensures Filed(AddOperation(clients, groups[0], ops[0]), groups[1..], ops[1..], n) == Filed(clients, groups, ops, n)
  {
    var c1 := AddOperation(clients, groups[0], ops[0]);
    AddOperationGet(clients, groups[0], ops[0], n);
    assert groups == [groups[0]] + groups[1..];
    assert n in groups <==> n in groups[1..];
    var rest := OpsOf(groups[1..], ops[1..], n);
    assert OpsOf(groups, ops, n) == rest by {
      assert OpsOf(groups, ops, n) == [] + rest;
    }
    assert n in Keys(c1) <==> n in Keys(clients);
    assert Get(c1, n) == Get(clients, n);
  }

  /** The client of group `n` after filing: an existing client gains the group's new
      operations at its end; a new group gets a fresh client holding them. */
  lemma {:induction false} GroupGet(clients: OrderedMap<string, Client>, groups: seq<string>, ops: seq<Operation>, n: string)
    requires |groups| == |ops|
    ensures Get(GroupOperations(clients, groups, ops), n) ==
      if n in Keys(clients) then Some(Get(clients, n).value.(operations := Get(clients, n).value.operations + OpsOf(groups, ops, n)))
      else if n in groups then Some(Client(ClientName(n), OpsOf(groups, ops, n)))
      else None
    decreases |groups|
  {
    if groups == [] {
      if n in Keys(clients) {
        var c := Get(clients, n).value;
        assert c.operations + OpsOf(groups, ops, n) == c.operations;
      }
    } else {
      GroupGet(AddOperation(clients, groups[0], ops[0]), groups[1..], ops[1..], n);
      if n == groups[0] {
        FiledHere(clients, groups, ops, n);
      } else {
        FiledElsewhere(clients, groups, ops, n);
      }
      assert Get(GroupOperations(clients, groups, ops), n) == Filed(clients, groups, ops, n);
    }
  }

  /** The number of operations held by all clients together. */
  function TotalOps(clients: OrderedMap<string, Client>): nat {
    if clients == [] then 0 else |clients[0].1.operations| + TotalOps(clients[1..])
  }

  lemma {:induction false} TotalOpsAppend(clients: OrderedMap<string, Client>, e: (string, Client))
    ensures TotalOps(clients + [e]) == TotalOps(clients) + |e.1.operations|
  {
    if clients != [] {
      assert (clients + [e])[1..] == clients[1..] + [e];
      TotalOpsAppend(clients[1..], e);
    } else {
      assert [e][1..] == [];
    }
  }

  lemma {:induction false} TotalOpsReplace(clients: OrderedMap<string, Client>, i: nat, e: (string, Client))
    requires i < |clients|
    ensures TotalOps(clients[i := e]) + |clients[i].1.operations| == TotalOps(clients) + |e.1.operations|
  {
    if i > 0 {
      assert clients[i := e][1..] == clients[1..][i - 1 := e];
      TotalOpsReplace(clients[1..], i - 1, e);
    }
  }

  /** Filing an operation adds exactly one operation. */
  lemma AddOperationTotal(clients: OrderedMap<string, Client>, group: string, op: Operation)
    ensures TotalOps(AddOperation(clients, group, op)) == TotalOps(clients) + 1
  {
    match Find(clients, group)
    case None =>
      TotalOpsAppend(clients, (group, Client(ClientName(group), [op])));
    case Some(i) =>
      var c := clients[i].1;
      TotalOpsReplace(clients, i, (group, c.(operations := c.operations + [op])));
  }

  /** Each operation is filed exactly once. */
  lemma {:induction false} GroupTotal(clients: OrderedMap<string, Client>, groups: seq<string>, ops: seq<Operation>)
    requires |groups| == |ops|
    ensures TotalOps(GroupOperations(clients, groups, ops)) == TotalOps(clients) + |ops|
    decreases |groups|
  {
    if groups != [] {
      AddOperationTotal(clients, groups[0], ops[0]);
      GroupTotal(AddOperation(clients, groups[0], ops[0]), groups[1..], ops[1..]);
    }
  }

  /** `OpsOf` picks out the operations whose group is `n`, keeping their order: the k-th
      operation of group `n` is the operation of the k-th route of that group. */
  lemma {:induction false} OpsOfExactly(groups: seq<string>, ops: seq<Operation>, n: string, op: Operation)
    requires |groups| == |ops|
    ensures op in OpsOf(groups, ops, n) <==> exists i :: 0 <= i < |ops| && groups[i] == n && ops[i] == op
    decreases |groups|
  {
    if groups != [] {
      OpsOfExactly(groups[1..], ops[1..], n, op);
      if op in OpsOf(groups[1..], ops[1..], n) {
        var i :| 0 <= i < |ops[1..]| && groups[1..][i] == n && ops[1..][i] == op;
        assert groups[i + 1] == n && ops[i + 1] == op;
      }
      if exists i :: 0 <= i < |ops| && groups[i] == n && ops[i] == op {
        var i :| 0 <= i < |ops| && groups[i] == n && ops[i] == op;
        if i > 0 {
          assert groups[1..][i - 1] == n && ops[1..][i - 1] == op;
        }
      }
    }
  }

  // ---------------------------------------------------------------------------
  // createPackage

  /** `createPackage`: the operations of all routes under one context, filed into
      clients. */
  function CreatePackage(g: Graph, ctx: Context, routes: seq<Route>): (r: Threaded<Package>)
    requires WellFormed(g) && RoutesIn(g, routes) && CtxOk(g, ctx)
    ensures Advances(g, ctx, r.ctx)
    ensures r.value.models == r.ctx.models && r.value.responses == r.ctx.responses
    ensures |r.value.clients| == |AddAll([], GroupNames(routes))|
  {
    var ops := CreateOperations(g, ctx, routes);
    var clients := GroupOperations([], GroupNames(routes), ops.value);
    GroupKeys([], GroupNames(routes), ops.value);
    Threaded(Package(Values(clients), ops.ctx.models, ops.ctx.responses), ops.ctx)
  }

  /** The clients of a package: one per group in order of first appearance, each named
      after its group and holding the operations of that group's routes in route order;
      all clients together hold one operation per route. */
  lemma PackageClients(g: Graph, ctx: Context, routes: seq<Route>)
    requires WellFormed(g) && RoutesIn(g, routes) && CtxOk(g, ctx)
    ensures var ops := CreateOperations(g, ctx, routes);
      var clients := GroupOperations([], GroupNames(routes), ops.value);
      CreatePackage(g, ctx, routes).value.clients == Values(clients) &&
      Keys(clients) == AddAll([], GroupNames(routes)) && KeysUnique(clients) &&
      TotalOps(clients) == |routes| &&
      forall i :: 0 <= i < |clients| ==>
        clients[i].1 == Client(ClientName(clients[i].0), OpsOf(GroupNames(routes), ops.value, clients[i].0))
  {
    var ops := CreateOperations(g, ctx, routes);
    GroupedClients(GroupNames(routes), ops.value);
  }

  /** The clients filed from nothing: keyed by group in order of first appearance, each
      holding its group's operations, one operation filed per group entry. */
  lemma GroupedClients(groups: seq<string>, ops: seq<Operation>)
    requires |groups| == |ops|
    ensures var clients := GroupOperations([], groups, ops);
      Keys(clients) == AddAll([], groups) && KeysUnique(clients) && TotalOps(clients) == |ops| &&
      forall i :: 0 <= i < |clients| ==>
        clients[i].1 == Client(ClientName(clients[i].0), OpsOf(groups, ops, clients[i].0))
  {
    var clients := GroupOperations([], groups, ops);
    GroupKeys([], groups, ops);
    GroupTotal([], groups, ops);
    forall i | 0 <= i < |clients|
      ensures clients[i].1 == Client(ClientName(clients[i].0), OpsOf(groups, ops, clients[i].0))
    {
      GroupedClient(groups, ops, i);
    }
  }

  /** Each client filed from nothing is the client of its group. */
  lemma GroupedClient(groups: seq<string>, ops: seq<Operation>, i: nat)
    requires |groups| == |ops| && i < |GroupOperations([], groups, ops)|
    ensures var clients := GroupOperations([], groups, ops);
      clients[i].1 == Client(ClientName(clients[i].0), OpsOf(groups, ops, clients[i].0))
  {
    var clients := GroupOperations([], groups, ops);
    GroupKeys([], groups, ops);
    var n := clients[i].0;
    GroupGet([], groups, ops, n);
    FindUnique(clients, i);
  }

  /** A package built from a finished context leaves it finished: every cached model and
      response holds exactly its reference contents. */
  lemma PackageDone(g: Graph, ctx: Context, routes: seq<Route>)
    requires WellFormed(g) && RoutesIn(g, routes) && Done(g, ctx)
    ensures Done(g, CreatePackage(g, ctx, routes).ctx)
  {
    AdvancesDone(g, ctx, CreatePackage(g, ctx, routes).ctx);
  }
}
