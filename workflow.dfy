/** The two-phase workflow a threat modeler runs, with the Terraform modeler
    plugged in: raw discovery, then consolidation of assets and edges, and the
    Mermaid rendering of an asset graph. */
module Workflow {
  import opened Strings
  import opened Assets
  import opened Lists
  import opened Discovery
  import opened Consolidation

  /** `run`: raw discovery only. The raw assets and the raw graph are handed
      back as they were found, with no threats yet. */
  method Run(files: seq<string>, parsed: Option<seq<Resource>>) returns (result: WorkflowResult)
    ensures result.assets == DiscoveredAssets(files, parsed)
    ensures result.graph == RawGraph(result.assets, parsed)
    ensures result.threats == []
  {
    var rawAssets := IdentifyAssets(files, parsed);
    var rawGraph := MapRelationships(rawAssets, parsed);
    result := WorkflowResult(rawAssets, rawGraph, []);
  }

  /** The ids of a graph's nodes. */
  function NodeIds(g: AssetGraph): set<string> {
    set n | n in g.nodes :: n.id
  }

  /** Every edge of the graph joins two of its nodes. */
  predicate Closed(g: AssetGraph) {
    forall e :: e in g.edges ==> e.from in NodeIds(g) && e.to in NodeIds(g)
  }

  /** The graph `consolidate` builds: a node per consolidated asset and the
      raw edges that survive the relationship filter. */
  function ConsolidatedGraph(assets: seq<Asset>, rawEdges: seq<Edge>): AssetGraph {
    AssetGraph(NodesOf(assets), ConsolidateRelationships(rawEdges, assets))
  }

  /** The consolidated graph has exactly the consolidated assets as nodes, and
      its edges are raw edges, in their original order, between two of them. */
  lemma ConsolidatedGraphClosed(assets: seq<Asset>, rawEdges: seq<Edge>)
    ensures NodeIds(ConsolidatedGraph(assets, rawEdges)) == Ids(assets)
    ensures Closed(ConsolidatedGraph(assets, rawEdges))
    ensures Subsequence(ConsolidatedGraph(assets, rawEdges).edges, rawEdges)
  {
    var g := ConsolidatedGraph(assets, rawEdges);
    forall x | x in Ids(assets) ensures x in NodeIds(g) {
      var i :| 0 <= i < |assets| && assets[i].id == x;
      assert g.nodes[i].id == x;
    }
    forall x | x in NodeIds(g) ensures x in Ids(assets) {
      var i :| 0 <= i < |g.nodes| && g.nodes[i].id == x;
      assert assets[i] in assets;
    }
  }

  /** `consolidate`: the Terraform modeler's asset consolidation (`graphText`
      is the output of `terraform graph`, when it could be produced), then the
      relationship filter against the consolidated assets. */
  method Consolidate(rawAssets: seq<Asset>, rawGraph: AssetGraph, graphText: Option<string>)
    returns (assets: seq<Asset>, graph: AssetGraph)
    ensures assets == ArchitecturalAnalysis(rawAssets, graphText)
    ensures graph == ConsolidatedGraph(assets, rawGraph.edges)
  {
    assets := PerformArchitecturalAnalysis(rawAssets, graphText);
    var edges := ConsolidateRelationships(rawGraph.edges, assets);
    var nodes := NodesOf(assets);
    graph := AssetGraph(nodes, edges);
  }

  // ----- Mermaid rendering -----

  /** The characters a Mermaid node id is left with. */
  predicate IsIdChar(c: char) {
    IsAsciiAlnum(c) || c == '_'
  }

  /** `id.replace(/[^a-zA-Z0-9]/g, '_')`. */
  function Sanitize(id: string): (r: string)
    ensures |r| == |id|
    ensures forall i :: 0 <= i < |r| ==> IsIdChar(r[i])
    ensures forall i :: 0 <= i < |id| ==> (r[i] == id[i] <==> IsIdChar(id[i]))
  {
    seq(|id|, i requires 0 <= i < |id| => if IsAsciiAlnum(id[i]) then id[i] else '_')
  }

  /** An id made of id characters only is left as it is, so sanitising twice
      is sanitising once. */
  lemma SanitizeIdempotent(id: string)
    ensures (forall i :: 0 <= i < |id| ==> IsIdChar(id[i])) ==> Sanitize(id) == id
    ensures Sanitize(Sanitize(id)) == Sanitize(id)
  {
    var r := Sanitize(id);
    assert forall i :: 0 <= i < |r| ==> Sanitize(r)[i] == r[i];
  }

  /** Sanitising is not injective: any two characters outside the id
      alphabet at the same place give the same node id. */
  lemma SanitizeMerges(a: string, b: string, c: char, d: char)
    requires !IsAsciiAlnum(c) && !IsAsciiAlnum(d)
    ensures Sanitize(a + [c] + b) == Sanitize(a + [d] + b)
  {
    var x, y := a + [c] + b, a + [d] + b;
    assert forall i :: 0 <= i < |x| && i != |a| ==> x[i] == y[i];
  }

  /** A sanitised id never breaks a line. */
  lemma SanitizeSingleLine(id: string)
    ensures '\n' !in Sanitize(id)
  {
    var r := Sanitize(id);
    assert forall i :: 0 <= i < |r| ==> r[i] != '\n';
  }

  function NodeLine(n: Node): string {
    "  " + Sanitize(n.id) + "[\"" + n.asset.name + "<br/>" + n.asset.kind + "\"]"
  }

  function EdgeLine(e: Edge): string {
    "  " + Sanitize(e.from) + " --> " + Sanitize(e.to)
  }

  function NodeLines(ns: seq<Node>): (r: seq<string>)
    ensures |r| == |ns|
    ensures forall i :: 0 <= i < |ns| ==> r[i] == NodeLine(ns[i])
  {
    if ns == [] then [] else NodeLines(ns[..|ns| - 1]) + [NodeLine(ns[|ns| - 1])]
  }

  function EdgeLines(es: seq<Edge>): (r: seq<string>)
    ensures |r| == |es|
    ensures forall i :: 0 <= i < |es| ==> r[i] == EdgeLine(es[i])
  {
    if es == [] then [] else EdgeLines(es[..|es| - 1]) + [EdgeLine(es[|es| - 1])]
  }

  /** The diagram's lines: the header, a line per node, a line per edge. */
  function DiagramLines(g: AssetGraph): (lines: seq<string>)
    ensures |lines| == 1 + |g.nodes| + |g.edges|
    ensures lines[0] == "graph TD"
  {
    ["graph TD"] + NodeLines(g.nodes) + EdgeLines(g.edges)
  }

  /** `generateMermaidDiagram`. */
  method GenerateMermaidDiagram(graph: AssetGraph) returns (diagram: string)
    ensures diagram == Join(DiagramLines(graph), "\n")
  {
    var lines := ["graph TD"];
    var i := 0;
    while i < |graph.nodes|
      invariant 0 <= i <= |graph.nodes|
      invariant lines == ["graph TD"] + NodeLines(graph.nodes[..i])
    {
      assert graph.nodes[..i + 1][..i] == graph.nodes[..i];
      lines := lines + [NodeLine(graph.nodes[i])];
      i := i + 1;
    }
    assert graph.nodes[..i] == graph.nodes;
    var j := 0;
    while j < |graph.edges|
      invariant 0 <= j <= |graph.edges|
      invariant lines == ["graph TD"] + NodeLines(graph.nodes) + EdgeLines(graph.edges[..j])
    {
      assert graph.edges[..j + 1][..j] == graph.edges[..j];
      lines := lines + [EdgeLine(graph.edges[j])];
      j := j + 1;
    }
    assert graph.edges[..j] == graph.edges;
    diagram := Join(lines, "\n");
  }

  /** No node's name or type breaks a line. */
  predicate SingleLineLabels(g: AssetGraph) {
    forall n :: n in g.nodes ==> '\n' !in n.asset.name && '\n' !in n.asset.kind
  }

  /** Splitting the diagram at newlines gives back its lines exactly when no
      label holds a newline: the header first, then one line per node and one
      per edge. */
  lemma DiagramSplitsIntoLines(g: AssetGraph)
    requires SingleLineLabels(g)
    ensures Split(Join(DiagramLines(g), "\n"), '\n') == DiagramLines(g)
    ensures |Split(Join(DiagramLines(g), "\n"), '\n')| == 1 + |g.nodes| + |g.edges|
    ensures StartsWith(Join(DiagramLines(g), "\n"), "graph TD")
  {
    var lines := DiagramLines(g);
    forall i | 0 <= i < |lines| ensures '\n' !in lines[i] {
      if 1 <= i < 1 + |g.nodes| {
        SanitizeSingleLine(g.nodes[i - 1].id);
      } else if i > 0 {
        SanitizeSingleLine(g.edges[i - 1 - |g.nodes|].from);
        SanitizeSingleLine(g.edges[i - 1 - |g.nodes|].to);
      }
    }
    SplitJoin(lines, '\n');
    JoinStartsWithFirst(lines, "\n");
  }
}
