/** The host compiler's type graph, as far as the modeler reads it.
    Nodes live in an arena keyed by `SrcId`; the answers of the host's predicates
    (intrinsic name, `@header`, `@body`, `@statusCode`, `@error`, `@discriminator`) are
    stored on the nodes as plain fields. */
module Source {
  import opened Wrappers

  type SrcId = nat

  /** A model property (a `ModelTypeProperty` of the host). */
  datatype SrcProp = SrcProp(
    name: string,
    typ: SrcId,
    optional: bool,
    isHeader: bool,
    headerFieldName: Option<string>,
    isBody: bool,
    isStatusCode: bool,
    statusCodes: seq<string>)

  datatype SrcNode =
    | SArray(elementType: SrcId)
      /** A model. `intrinsicName` is the host's intrinsic name, `baseModel` the model it
          extends, `properties` its own properties in declaration order. */
    | SModel(
        name: string,
        intrinsicName: Option<string>,
        baseModel: Option<SrcId>,
        properties: seq<SrcProp>,
        discriminator: Option<string>,
        isError: bool)
    | SBoolean(bvalue: bool)
    | SNumber(nvalue: int)
    | SString(svalue: string)
    | SUnion(options: seq<SrcId>)
      /** Any other kind the host has (enums, tuples, operations, ...). */
    | SOther(kind: string)

  type Graph = map<SrcId, SrcNode>

  /** A model with a non-empty intrinsic name (`if (name)` in the source). */
  predicate IsIntrinsic(n: SrcNode) {
    n.SModel? && n.intrinsicName.Some? && n.intrinsicName.value != []
  }

  /** A model that is translated into a model node of its own. */
  predicate IsPlainModel(n: SrcNode) {
    n.SModel? && !IsIntrinsic(n)
  }

  /** Every id a node refers to is in the graph, and a base model is a model. */
  predicate Closed(g: Graph) {
    forall id :: id in g ==> NodeClosed(g, g[id])
  }

  predicate NodeClosed(g: Graph, n: SrcNode) {
    match n
    case SArray(e) => e in g
    case SUnion(options) => forall o :: o in options ==> o in g
    case SModel(_, _, base, props, _, _) =>
      (base.Some? ==> base.value in g && g[base.value].SModel?) &&
      forall p :: p in props ==> p.typ in g
    case _ => true
  }

  /** `rk` ranks the graph so that array elements, union options, base models and the
      property types of intrinsic models are ranked below the node referring to them.
      Cycles are thus possible only through the properties of plain models. */
  predicate RankOk(g: Graph, rk: map<SrcId, nat>) {
    forall id :: id in g ==> id in rk && EdgesOk(g[id], rk, rk[id])
  }

  predicate EdgesOk(n: SrcNode, rk: map<SrcId, nat>, r: nat) {
    match n
    case SArray(e) => e in rk && rk[e] < r
    case SUnion(options) => forall o :: o in options ==> o in rk && rk[o] < r
    case SModel(_, _, base, props, _, _) =>
      (base.Some? ==> base.value in rk && rk[base.value] < r) &&
      (IsIntrinsic(n) ==> forall p :: p in props ==> p.typ in rk && rk[p.typ] < r)
    case _ => true
  }

  ghost predicate WellFormed(g: Graph) {
    Closed(g) && exists rk :: RankOk(g, rk)
  }

  /** The rank of a node under one fixed ranking of the graph. */
  ghost function Rank(g: Graph, id: SrcId): nat
    requires WellFormed(g)
  {
    var rk :| RankOk(g, rk);
    if id in rk then rk[id] else 0
  }

  lemma RankEdges(g: Graph, id: SrcId)
    requires WellFormed(g) && id in g
    ensures g[id].SArray? ==> Rank(g, g[id].elementType) < Rank(g, id)
    ensures g[id].SUnion? ==> forall o :: o in g[id].options ==> Rank(g, o) < Rank(g, id)
    ensures g[id].SModel? && g[id].baseModel.Some? ==> Rank(g, g[id].baseModel.value) < Rank(g, id)
    ensures IsIntrinsic(g[id]) ==> forall p :: p in g[id].properties ==> Rank(g, p.typ) < Rank(g, id)
  {
    var rk :| RankOk(g, rk);
    assert EdgesOk(g[id], rk, rk[id]);
  }

  /** `getAllModelProperties`: the base model's properties (recursively) first, then the
      model's own properties in declaration order. */
  function AllModelProperties(g: Graph, id: SrcId): (r: seq<SrcProp>)
    requires WellFormed(g) && id in g && g[id].SModel?
    ensures forall p :: p in r ==> p.typ in g
    ensures |g[id].properties| <= |r| && r[|r| - |g[id].properties|..] == g[id].properties
    ensures g[id].baseModel.None? ==> r == g[id].properties
    decreases Rank(g, id)
  {
    var n := g[id];
    RankEdges(g, id);
    assert NodeClosed(g, n);
    var inherited := if n.baseModel.Some? then AllModelProperties(g, n.baseModel.value) else [];
    inherited + n.properties
  }

  /** `type.properties.get(name)`: the first property with that name. */
  function FindProp(props: seq<SrcProp>, name: string): (r: Option<SrcProp>)
    ensures r.Some? ==> r.value in props && r.value.name == name
    ensures r.None? ==> forall p :: p in props ==> p.name != name
  {
    if props == [] then None
    else if props[0].name == name then Some(props[0])
    else FindProp(props[1..], name)
  }
}
