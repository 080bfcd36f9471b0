/** The records the threat modeler passes between its phases: assets, graph
    nodes and edges, the asset graph and the workflow's result. */
module Assets {

  datatype Option<+T> = None | Some(value: T)

  /** A discovered resource or a synthesised architectural grouping. `kind` is
      the source's `type` field; `relationships` is its optional list of
      annotation strings. */
  datatype Asset = Asset(
    id: string,
    name: string,
    kind: string,
    file: string,
    line: int,
    relationships: Option<seq<string>>)

  datatype Edge = Edge(from: string, to: string, kind: string, description: string)

  datatype Node = Node(id: string, asset: Asset)

  datatype AssetGraph = AssetGraph(nodes: seq<Node>, edges: seq<Edge>)

  datatype Mitigation = Mitigation(strategy: string, longTerm: bool, references: seq<string>)

  datatype Validation = Validation(
    isRealWorld: bool,
    sources: seq<string>,
    reasoning: string,
    owaspRelevant: bool,
    mitreRelevant: bool,
    cveRelevant: bool,
    attckRelevant: bool,
    wordingChecked: bool)

  datatype Threat = Threat(
    id: string,
    kind: string,
    description: string,
    file: string,
    line: int,
    references: seq<string>,
    validation: Validation,
    mitigations: seq<Mitigation>)

  datatype WorkflowResult = WorkflowResult(assets: seq<Asset>, graph: AssetGraph, threats: seq<Threat>)

  /** A graph node per asset, in order: `assets.map(asset => ({id: asset.id, asset}))`. */
  function NodesOf(assets: seq<Asset>): (nodes: seq<Node>)
    ensures |nodes| == |assets|
    ensures forall i :: 0 <= i < |assets| ==> nodes[i].id == assets[i].id && nodes[i].asset == assets[i]
  {
    seq(|assets|, i requires 0 <= i < |assets| => Node(assets[i].id, assets[i]))
  }

  function Ids(assets: seq<Asset>): (ids: set<string>)
    ensures forall a :: a in assets ==> a.id in ids
    ensures forall x :: x in ids ==> exists a :: a in assets && a.id == x
  {
    set a | a in assets :: a.id
  }
}
