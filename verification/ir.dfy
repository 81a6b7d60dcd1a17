/** The intermediate representation of packages/emitter/src/modeler/model.ts.
    The IR is cyclic (a model's property may have that model as its type), so model
    types point into an arena of declarations by index, and operations point into an
    arena of responses: both the interface cache and the response cache of the emitter
    are keyed by node identity, which the index stands for. */
module Ir {
  import opened Wrappers
  import opened Strings
  import opened Ordered

  /** Identity of a model node: its index in the package's model arena. */
  type ModelId = nat

  /** Identity of a response node: its index in the package's response arena. */
  type ResponseId = nat

  /** Where a model or response property lives: header or body, never path or query. */
  datatype ResponseLocation = BodyProp | HeaderProp

  /** Where a parameter lives; every parameter has exactly one. */
  datatype ParameterLocation = BodyParam | HeaderParam | QueryParam | PathParam

  /** The seven kinds of REST type. The three scalar kinds may carry a constant. Numbers
      are modelled as integers. */
  datatype RestType =
    | StringType(sconstant: Option<string>)
    | NumberType(nconstant: Option<int>)
    | BooleanType(bconstant: Option<bool>)
    | ArrayType(elementType: RestType)
    | ModelType(id: ModelId)
    | UnionType(options: seq<RestType>)
    | MapType(valueType: RestType)

  datatype ModelProperty = ModelProperty(
    name: string,
    serializedName: Option<string>,
    optional: bool,
    location: Option<ResponseLocation>,
    typ: RestType)

  /** The contents of a model node. The properties form an insertion-ordered map keyed
      by property name. */
  datatype ModelDecl = ModelDecl(
    name: string,
    discriminator: Option<string>,
    properties: OrderedMap<string, ModelProperty>)

  datatype Response = Response(
    name: string,
    discriminator: Option<string>,
    properties: OrderedMap<string, ModelProperty>,
    isError: bool,
    statusCodes: seq<string>)

  datatype Parameter = Parameter(
    name: string,
    serializedName: Option<string>,
    location: ParameterLocation,
    typ: RestType,
    optional: bool)

  datatype HttpVerb = GET | PUT | POST | DELETE | PATCH | HEAD | OPTIONS | TRACE

  datatype Operation = Operation(
    name: string,
    path: string,
    parameters: seq<Parameter>,
    responses: seq<ResponseId>,
    verb: HttpVerb)

  datatype Client = Client(name: string, operations: seq<Operation>)

  /** The clients, together with the arenas their types and responses point into. */
  datatype Package = Package(clients: seq<Client>, models: seq<ModelDecl>, responses: seq<Response>)

  /** The verb as it is written in the generated code. */
  function VerbText(v: HttpVerb): (r: string)
    ensures r != [] && forall i :: 0 <= i < |r| ==> IsUpper(r[i])
  {
    match v
    case GET => "GET"
    case PUT => "PUT"
    case POST => "POST"
    case DELETE => "DELETE"
    case PATCH => "PATCH"
    case HEAD => "HEAD"
    case OPTIONS => "OPTIONS"
    case TRACE => "TRACE"
  }

  /** The eight verbs are written differently. */
  lemma VerbTextInjective(v: HttpVerb, w: HttpVerb)
    ensures VerbText(v) == VerbText(w) <==> v == w
  {
    if v != w {
      match v
      case GET => assert VerbText(v)[0] == 'G';
      case PUT => assert VerbText(v)[1] == 'U';
      case POST => assert VerbText(v)[1] == 'O';
      case DELETE => assert VerbText(v)[0] == 'D';
      case PATCH => assert VerbText(v)[1] == 'A';
      case HEAD => assert VerbText(v)[0] == 'H';
      case OPTIONS => assert VerbText(v)[0] == 'O';
      case TRACE => assert VerbText(v)[0] == 'T';
    }
  }

  /** Every model type inside `t` points into an arena of `n` models. */
  predicate RefsBelow(t: RestType, n: nat) {
    match t
    case ArrayType(e) => RefsBelow(e, n)
    case ModelType(id) => id < n
    case UnionType(options) => forall o :: o in options ==> RefsBelow(o, n)
    case MapType(v) => RefsBelow(v, n)
    case _ => true
  }

  /** A number of nodes inside a type, used to bound recursion over it. */
  function Size(t: RestType): (r: nat)
    ensures r >= 1
  {
    match t
    case ArrayType(e) => 1 + Size(e)
    case UnionType(options) => 1 + SizeAll(options)
    case MapType(v) => 1 + Size(v)
    case _ => 1
  }

  function SizeAll(ts: seq<RestType>): (r: nat)
    ensures forall t :: t in ts ==> Size(t) <= r
    ensures |ts| <= r
  {
    if ts == [] then 0
    else Size(ts[0]) + SizeAll(ts[1..])
  }
}
