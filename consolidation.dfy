/** The two consolidation strategies of the Terraform workflow and the
    relationship filter that follows them. Without a `terraform graph` the raw
    assets are bucketed into eight architectural layers; with one, they are
    grouped by the graph's clusters and the rest bucketed into layers. */
module Consolidation {
  import opened Strings
  import opened Assets
  import opened Groups
  import opened Lists
  import opened Classify
  import opened Clusters
  import opened Ranking

  /** `name.toLowerCase().replace(/\s+/g, '_')`, the id suffix of a layer. */
  function Slug(name: string): (r: string)
    ensures forall i :: 0 <= i < |r| ==> !IsSpace(r[i])
  {
    CollapseSpaces(ToLower(name))
  }

  /** `assets.map(a => a.name)`. */
  function Names(s: seq<Asset>): (r: seq<string>)
    ensures |r| == |s|
    ensures forall i :: 0 <= i < |s| ==> r[i] == s[i].name
  {
    seq(|s|, i requires 0 <= i < |s| => s[i].name)
  }

  // ----- createHighLevelArchitecturalComponents (no graph) -----

  /** The `architectural_system` asset of a layer of two or more assets. */
  function SystemAsset(layer: string, members: seq<Asset>): Asset
    requires |members| > 0
  {
    SystemAssetWith(layer, members, KeyResources(members))
  }

  /** That asset with its key resources `keys` already chosen. */
  function SystemAssetWith(layer: string, members: seq<Asset>, keys: seq<string>): Asset
    requires |members| > 0
  {
    Asset("arch_" + Slug(layer), layer, "architectural_system", members[0].file, members[0].line,
      Some(["Resources: " + NatToString(|members|) + " components",
            "Purpose: " + SystemPurpose(layer),
            "Key: " + (if |keys| > 0 then Join(keys, ", ") else "Various components")]))
  }

  /** What one layer yields: its system when it holds two or more assets, its
      lone asset renamed when that one scores at least 7, and nothing otherwise. */
  function SystemOutput(layer: string, members: seq<Asset>): (r: seq<Asset>)
    ensures |r| <= 1 && |r| <= |members|
    ensures |members| >= 2 ==> r == [SystemAsset(layer, members)]
    ensures |members| == 1 ==> (r != [] <==> ImportanceScore(members[0]) >= 7)
    ensures |members| == 1 && r != [] ==> r[0] == members[0].(name := CleanName(members[0].name))
  {
    if |members| >= 2 then [SystemAsset(layer, members)]
    else if |members| == 1 && ImportanceScore(members[0]) >= 7 then [members[0].(name := CleanName(members[0].name))]
    else []
  }

  /** What the no-graph path returns: each layer's output, layers in the order
      their first asset appears. */
  function ArchitecturalSystems(raw: seq<Asset>): seq<Asset> {
    FlatMapGroups(GroupBy(raw, HighLevelArchitecture), SystemOutput)
  }

  /** The no-graph path never returns more assets than it was given; indeed
      no more than there are occupied layers. */
  lemma ArchitecturalSystemsBound(raw: seq<Asset>)
    ensures |ArchitecturalSystems(raw)| <= |GroupBy(raw, HighLevelArchitecture)| <= |raw|
  {
    FlatMapGroupsCount(GroupBy(raw, HighLevelArchitecture), SystemOutput);
    GroupBySize(raw, HighLevelArchitecture);
  }

  /** The raw assets on the layer of `a`, in their original order. */
  function LayerMates(raw: seq<Asset>, a: Asset): seq<Asset> {
    WithKey(raw, HighLevelArchitecture, HighLevelArchitecture(a))
  }

  /** Every returned asset is the output of the layer of some raw asset, and the
      output of every layer is returned. */
  lemma ArchitecturalSystemsMembers(raw: seq<Asset>, o: Asset)
    ensures o in ArchitecturalSystems(raw)
            <==> exists j :: 0 <= j < |raw| && o in SystemOutput(HighLevelArchitecture(raw[j]), LayerMates(raw, raw[j]))
  {
    GroupedResults(raw, HighLevelArchitecture, SystemOutput, o);
  }

  /** A layer holding two or more raw assets becomes one `architectural_system`
      asset with its resource count, purpose and key resources. */
  lemma LargeLayerBecomesSystem(raw: seq<Asset>, j: nat)
    requires j < |raw| && |LayerMates(raw, raw[j])| >= 2
    ensures SystemAsset(HighLevelArchitecture(raw[j]), LayerMates(raw, raw[j])) in ArchitecturalSystems(raw)
  {
    ArchitecturalSystemsMembers(raw, SystemAsset(HighLevelArchitecture(raw[j]), LayerMates(raw, raw[j])));
  }

  /** A raw asset alone on its layer is kept, renamed, exactly when it scores at
      least 7; otherwise its layer yields nothing. */
  lemma SingletonLayer(raw: seq<Asset>, j: nat)
    requires j < |raw| && |LayerMates(raw, raw[j])| == 1
    ensures LayerMates(raw, raw[j]) == [raw[j]]
    ensures ImportanceScore(raw[j]) >= 7 ==> raw[j].(name := CleanName(raw[j].name)) in ArchitecturalSystems(raw)
    ensures ImportanceScore(raw[j]) < 7 ==> SystemOutput(HighLevelArchitecture(raw[j]), LayerMates(raw, raw[j])) == []
  {
    WithKeySingleton(raw, HighLevelArchitecture, j);
    var r := SystemOutput(HighLevelArchitecture(raw[j]), LayerMates(raw, raw[j]));
    if ImportanceScore(raw[j]) >= 7 {
      var o := raw[j].(name := CleanName(raw[j].name));
      assert r == [o];
      ArchitecturalSystemsMembers(raw, o);
    }
  }


  // ----- createHighLevelComponents (graph path, for the assets no cluster took) -----

  /** The `infrastructure_layer` asset of a layer of more than two significant assets. */
  function LayerAsset(layer: string, members: seq<Asset>): Asset
    requires |members| > 0
  {
    Asset("layer_" + Slug(layer), layer + " (" + NatToString(|members|) + " components)", "infrastructure_layer",
      members[0].file, members[0].line,
      Some(["Layer components: " + Join(Take(Names(members), 3), ", ")]))
  }

  /** What one layer yields on the graph path: its layer asset for more than two
      assets, the assets themselves otherwise. */
  function LayerOutput(layer: string, members: seq<Asset>): (r: seq<Asset>)
    ensures |r| <= |members|
    ensures |members| > 2 ==> r == [LayerAsset(layer, members)]
    ensures |members| <= 2 ==> r == members
  {
    if |members| > 2 then [LayerAsset(layer, members)] else members
  }

  function Significant(u: seq<Asset>): seq<Asset> {
    Filter(u, IsArchitecturallySignificant)
  }

  /** What `createHighLevelComponents` returns for the assets `u`. */
  function HighLevelComponents(u: seq<Asset>): seq<Asset> {
    FlatMapGroups(GroupBy(Significant(u), ArchitecturalComponent), LayerOutput)
  }

  /** It never returns more assets than it was given. */
  lemma HighLevelComponentsBound(u: seq<Asset>)
    ensures |HighLevelComponents(u)| <= |Significant(u)| <= |u|
  {
    FlatMapGroupsSize(GroupBy(Significant(u), ArchitecturalComponent), LayerOutput);
    GroupBySize(Significant(u), ArchitecturalComponent);
  }

  /** The significant assets on the component layer of `a`, in their original order. */
  function ComponentMates(u: seq<Asset>, a: Asset): seq<Asset> {
    WithKey(Significant(u), ArchitecturalComponent, ArchitecturalComponent(a))
  }

  /** Every returned asset is the output of the component layer of some
      significant asset, and the output of every such layer is returned. */
  lemma HighLevelComponentsMembers(u: seq<Asset>, o: Asset)
    ensures o in HighLevelComponents(u) <==>
      exists j :: 0 <= j < |Significant(u)|
        && o in LayerOutput(ArchitecturalComponent(Significant(u)[j]), ComponentMates(u, Significant(u)[j]))
  {
    GroupedResults(Significant(u), ArchitecturalComponent, LayerOutput, o);
  }

  /** Every returned asset that is not a layer asset is one of the significant
      inputs, on a layer of at most two of them. */
  lemma HighLevelComponentsKeepSignificant(u: seq<Asset>, o: Asset)
    requires o in HighLevelComponents(u) && o.kind != "infrastructure_layer"
    ensures o in u && IsArchitecturallySignificant(o)
    ensures |ComponentMates(u, o)| <= 2
  {
    var sig := Significant(u);
    HighLevelComponentsMembers(u, o);
    var j :| 0 <= j < |sig| && o in LayerOutput(ArchitecturalComponent(sig[j]), ComponentMates(u, sig[j]));
    var m := ComponentMates(u, sig[j]);
    assert o in m;
    assert ArchitecturalComponent(o) == ArchitecturalComponent(sig[j]);
  }

  // ----- consolidateByGraphClusters -----

  /** Some label of the cluster includes the asset's name. */
  predicate NamedIn(a: Asset, labels: seq<string>) {
    exists l :: l in labels && Contains(l, a.name)
  }

  /** `rawAssets.filter(asset => resourceNames.some(name => name.includes(asset.name)))`. */
  function ClusterMembers(raw: seq<Asset>, labels: seq<string>): seq<Asset> {
    Filter(raw, (a: Asset) => NamedIn(a, labels))
  }

  /** The `architectural_cluster` asset of a cluster matching more than one asset. */
  function ClusterAsset(key: string, members: seq<Asset>): Asset
    requires |members| > 0
  {
    Asset("cluster_" + key, ArchitecturalName(key) + " (" + NatToString(|members|) + " resources)",
      "architectural_cluster", members[0].file, members[0].line,
      Some(["Graph-based cluster: " + key,
            "Resources: " + Join(Take(Names(members), 3), ", ") + (if |members| > 3 then "..." else "")]))
  }

  /** What one cluster yields: its asset when it matches more than one raw asset. */
  function ClusterOutput(raw: seq<Asset>, key: string, labels: seq<string>): (r: seq<Asset>)
    ensures |r| == if |ClusterMembers(raw, labels)| > 1 then 1 else 0
    ensures r != [] ==> r[0].kind == "architectural_cluster" && r[0].id == "cluster_" + key
  {
    var m := ClusterMembers(raw, labels);
    if |m| > 1 then [ClusterAsset(key, m)] else []
  }

  /** The cluster assets, in cluster order. */
  function ClusterAssets(raw: seq<Asset>, clusters: Entries<string, string>): seq<Asset> {
    FlatMapGroups(clusters, ClusterOutputs(raw))
  }

  /** `ClusterOutput` for the raw assets `raw`, as the callback of a `forEach` over the clusters. */
  function ClusterOutputs(raw: seq<Asset>): (string, seq<string>) -> seq<Asset> {
    (key: string, labels: seq<string>) => ClusterOutput(raw, key, labels)
  }

  /** The ids a cluster claims: those of its members when it has more than one. */
  function ClusterIds(raw: seq<Asset>, labels: seq<string>): set<string> {
    var m := ClusterMembers(raw, labels);
    if |m| > 1 then Ids(m) else {}
  }

  /** The ids each cluster claims, as the loop accumulates them in `groupedAssetIds`. */
  function GroupedIds(raw: seq<Asset>, clusters: Entries<string, string>): set<string> {
    UnionGroups(clusters, ClusterClaims(raw))
  }

  function ClusterClaims(raw: seq<Asset>): (string, seq<string>) -> set<string> {
    (key: string, labels: seq<string>) => ClusterIds(raw, labels)
  }

  /** The raw assets no cluster took, in their original order. */
  function Ungrouped(raw: seq<Asset>, clusters: Entries<string, string>): seq<Asset> {
    var ids := GroupedIds(raw, clusters);
    Filter(raw, (a: Asset) => a.id !in ids)
  }

  /** What `consolidateByGraphClusters` returns. */
  function GraphConsolidation(raw: seq<Asset>, clusters: Entries<string, string>): seq<Asset> {
    ClusterAssets(raw, clusters) + HighLevelComponents(Ungrouped(raw, clusters))
  }

  /** Each cluster asset is the output of one of the clusters, and the output
      of every cluster is among them. */
  lemma ClusterAssetsMembers(raw: seq<Asset>, clusters: Entries<string, string>, o: Asset)
    ensures o in ClusterAssets(raw, clusters) <==>
      exists i :: 0 <= i < |clusters| && o in ClusterOutput(raw, clusters[i].0, clusters[i].1)
  {
    FlatMapGroupsIn(clusters, ClusterOutputs(raw), o);
  }

  /** An id is grouped exactly when a cluster matching more than one raw asset matches an asset with that id. */
  lemma GroupedIdsIff(raw: seq<Asset>, clusters: Entries<string, string>, x: string)
    ensures x in GroupedIds(raw, clusters) <==>
      exists i :: 0 <= i < |clusters| && x in ClusterIds(raw, clusters[i].1)
  {
    UnionGroupsIn(clusters, ClusterClaims(raw), x);
  }



  /** No raw asset is lost: each one is taken by a cluster matching more than
      one asset, or is passed on, in order, to the layer grouping. */
  lemma NoAssetLost(raw: seq<Asset>, clusters: Entries<string, string>, a: Asset)
    requires a in raw
    ensures a in Ungrouped(raw, clusters) <==> a.id !in GroupedIds(raw, clusters)
    ensures a !in Ungrouped(raw, clusters) ==>
      exists i :: 0 <= i < |clusters| && |ClusterMembers(raw, clusters[i].1)| > 1
                  && a.id in Ids(ClusterMembers(raw, clusters[i].1))
    ensures Subsequence(Ungrouped(raw, clusters), raw)
  {
    var ids := GroupedIds(raw, clusters);
    FilterSubsequence(raw, (b: Asset) => b.id !in ids);
    if a.id !in ids {
      FilterKeeps(raw, (b: Asset) => b.id !in ids, a);
    } else {
      GroupedIdsIff(raw, clusters, a.id);
    }
  }

  /** A cluster's members are exactly the raw assets whose name some label of the cluster includes. */
  lemma ClusterMembersNamed(raw: seq<Asset>, labels: seq<string>)
    ensures forall a :: a in ClusterMembers(raw, labels) <==> a in raw && NamedIn(a, labels)
  {
    forall a | a in raw && NamedIn(a, labels) ensures a in ClusterMembers(raw, labels) {
      FilterKeeps(raw, (b: Asset) => NamedIn(b, labels), a);
    }
  }

  /** The graph path can return more assets than it was given: an asset whose
      name appears under several keys is counted in each of their clusters. */
  lemma GraphPathCanGrow(x: Asset, y: Asset, k1: string, k2: string, k3: string)
    ensures |GraphConsolidation([x, y], [(k1, [x.name, y.name]), (k2, [x.name, y.name]), (k3, [x.name, y.name])])| == 3
  {
    var raw := [x, y];
    var labels := [x.name, y.name];
    BothNamed(x, y);
    RepeatedCluster(raw, labels, k1, k2, k3);
    var clusters := [(k1, labels), (k2, labels), (k3, labels)];
    assert Significant([]) == [];
  }

  lemma BothNamed(x: Asset, y: Asset)
    ensures ClusterMembers([x, y], [x.name, y.name]) == [x, y]
  {
    var labels := [x.name, y.name];
    assert Contains(x.name, x.name) && Contains(y.name, y.name);
    assert NamedIn(x, labels) && NamedIn(y, labels);
    assert [x, y][..1] == [x] && [x][..0] == [];
    assert ClusterMembers([], labels) == [];
    assert ClusterMembers([x], labels) == [x];
  }

  lemma RepeatedCluster(raw: seq<Asset>, labels: seq<string>, k1: string, k2: string, k3: string)
    requires ClusterMembers(raw, labels) == raw && |raw| > 1
    ensures |ClusterAssets(raw, [(k1, labels), (k2, labels), (k3, labels)])| == 3
    ensures GroupedIds(raw, [(k1, labels), (k2, labels), (k3, labels)]) == Ids(raw)
  {
    var clusters := [(k1, labels), (k2, labels), (k3, labels)];
    var f, h := ClusterOutputs(raw), ClusterClaims(raw);
    FlatMapThree(clusters, f);
    UnionThree(clusters, h);
    assert |f(k1, labels)| == 1 && |f(k2, labels)| == 1 && |f(k3, labels)| == 1;
    assert h(k1, labels) == Ids(raw) && h(k2, labels) == Ids(raw) && h(k3, labels) == Ids(raw);
  }


  // ----- performArchitecturalAnalysis and consolidateRelationships -----

  /** What `consolidateAssets` returns: the graph path when `terraform graph`
      produced a non-empty text, the no-graph path otherwise. */
  function ArchitecturalAnalysis(raw: seq<Asset>, graph: Option<string>): seq<Asset> {
    if graph.Some? && graph.value != "" then GraphConsolidation(raw, ClustersOf(graph.value))
    else ArchitecturalSystems(raw)
  }

  /** Without a usable graph the consolidation never grows the asset list. */
  lemma NoGraphBound(raw: seq<Asset>, graph: Option<string>)
    requires graph.None? || graph.value == ""
    ensures |ArchitecturalAnalysis(raw, graph)| <= |raw|
  {
    ArchitecturalSystemsBound(raw);
  }

  /** The edges of the consolidated graph: the raw edges whose both endpoints
      are ids of consolidated assets, in their original order. */
  function ConsolidateRelationships(rawEdges: seq<Edge>, assets: seq<Asset>): (r: seq<Edge>)
    ensures Subsequence(r, rawEdges)
    ensures forall e :: e in r <==> e in rawEdges && e.from in Ids(assets) && e.to in Ids(assets)
  {
    var ids := Ids(assets);
    var r := Filter(rawEdges, (e: Edge) => e.from in ids && e.to in ids);
    FilterSubsequence(rawEdges, (e: Edge) => e.from in ids && e.to in ids);
    forall e | e in rawEdges && e.from in ids && e.to in ids ensures e in r {
      FilterKeeps(rawEdges, (e: Edge) => e.from in ids && e.to in ids, e);
    }
    r
  }

  /** A raw edge between two consolidated ids is kept as often as it occurs
      among the raw edges, so a repeated dependency stays repeated; any other
      edge does not occur at all. */
  lemma ConsolidateRelationshipsCounts(rawEdges: seq<Edge>, assets: seq<Asset>, e: Edge)
    ensures multiset(ConsolidateRelationships(rawEdges, assets))[e]
         == if e.from in Ids(assets) && e.to in Ids(assets) then multiset(rawEdges)[e] else 0
  {
    var ids := Ids(assets);
    FilterCount(rawEdges, (e: Edge) => e.from in ids && e.to in ids, e);
  }

  // ----- the methods, as the source computes them -----

  /** The `forEach` callback of `createHighLevelArchitecturalComponents` for one layer. */
  method ComponentFor(componentName: string, assets: seq<Asset>) returns (pushed: seq<Asset>)
    ensures pushed == SystemOutput(componentName, assets)
  {
    pushed := [];
    if |assets| >= 2 {
      var sorting := new Asset[|assets|](k requires 0 <= k < |assets| => assets[k]);
      assert sorting[..] == assets;
      var keyResources := GetKeyResources(sorting);
      pushed := [SystemAssetWith(componentName, assets, keyResources)];
    } else if |assets| == 1 {
      var asset := assets[0];
      if ImportanceScore(asset) >= 7 {
        pushed := [asset.(name := CleanName(asset.name))];
      }
    }
  }

  /** `createHighLevelArchitecturalComponents`. */
  method CreateHighLevelArchitecturalComponents(rawAssets: seq<Asset>) returns (consolidated: seq<Asset>)
    ensures consolidated == ArchitecturalSystems(rawAssets)
  {
    var architecturalMap := Fill(rawAssets, HighLevelArchitecture);
    consolidated := [];
    var i := 0;
    while i < |architecturalMap|
      invariant 0 <= i <= |architecturalMap|
      invariant consolidated == FlatMapGroups(architecturalMap[..i], SystemOutput)
    {
      var pushed := ComponentFor(architecturalMap[i].0, architecturalMap[i].1);
      consolidated := consolidated + pushed;
      assert architecturalMap[..i + 1][..i] == architecturalMap[..i];
      i := i + 1;
    }
    assert architecturalMap[..i] == architecturalMap;
  }

  /** The `forEach` callback of `createHighLevelComponents` for one layer. */
  method LayerFor(layer: string, assets: seq<Asset>) returns (pushed: seq<Asset>)
    ensures pushed == LayerOutput(layer, assets)
  {
    if |assets| > 2 {
      pushed := [LayerAsset(layer, assets)];
    } else {
      pushed := assets;
    }
  }

  /** `createHighLevelComponents`. */
  method CreateHighLevelComponents(ungroupedAssets: seq<Asset>) returns (result: seq<Asset>)
    ensures result == HighLevelComponents(ungroupedAssets)
  {
    var importantAssets := Filter(ungroupedAssets, IsArchitecturallySignificant);
    var layerGroups := Fill(importantAssets, ArchitecturalComponent);
    result := [];
    var i := 0;
    while i < |layerGroups|
      invariant 0 <= i <= |layerGroups|
      invariant result == FlatMapGroups(layerGroups[..i], LayerOutput)
    {
      var pushed := LayerFor(layerGroups[i].0, layerGroups[i].1);
      result := result + pushed;
      assert layerGroups[..i + 1][..i] == layerGroups[..i];
      i := i + 1;
    }
    assert layerGroups[..i] == layerGroups;
  }

  /** The `forEach` callback of `consolidateByGraphClusters` for one cluster:
      the asset it pushes and the ids it marks as grouped. */
  method ClusterFor(rawAssets: seq<Asset>, clusterName: string, resourceNames: seq<string>)
    returns (pushed: seq<Asset>, grouped: set<string>)
    ensures pushed == ClusterOutput(rawAssets, clusterName, resourceNames)
    ensures grouped == ClusterIds(rawAssets, resourceNames)
  {
    var clusterAssets := ClusterMembers(rawAssets, resourceNames);
    pushed, grouped := [], {};
    if |clusterAssets| > 1 {
      pushed := [ClusterAsset(clusterName, clusterAssets)];
      grouped := Ids(clusterAssets);
    }
  }

  /** `consolidateByGraphClusters`. */
  method ConsolidateByGraphClusters(rawAssets: seq<Asset>, clusters: Entries<string, string>) returns (consolidated: seq<Asset>)
    ensures consolidated == GraphConsolidation(rawAssets, clusters)
  {
    consolidated := [];
    var groupedAssetIds: set<string> := {};
    var i := 0;
    while i < |clusters|
      invariant 0 <= i <= |clusters|
      invariant consolidated == ClusterAssets(rawAssets, clusters[..i])
      invariant groupedAssetIds == GroupedIds(rawAssets, clusters[..i])
    {
      var pushed, grouped := ClusterFor(rawAssets, clusters[i].0, clusters[i].1);
      consolidated := consolidated + pushed;
      groupedAssetIds := groupedAssetIds + grouped;
      assert clusters[..i + 1][..i] == clusters[..i];
      i := i + 1;
    }
    assert clusters[..i] == clusters;
    var ungroupedAssets := Filter(rawAssets, (a: Asset) => a.id !in groupedAssetIds);
    var highLevelUngrouped := CreateHighLevelComponents(ungroupedAssets);
    consolidated := consolidated + highLevelUngrouped;
  }

  /** `performArchitecturalAnalysis`, with the output of `terraform graph` as an
      input: absent when neither invocation succeeded. */
  method PerformArchitecturalAnalysis(raw: seq<Asset>, graph: Option<string>) returns (consolidated: seq<Asset>)
    ensures consolidated == ArchitecturalAnalysis(raw, graph)
  {
    if graph.Some? && graph.value != "" {
      var clusters := ExtractClusters(graph.value);
      consolidated := ConsolidateByGraphClusters(raw, clusters);
    } else {
      consolidated := CreateHighLevelArchitecturalComponents(raw);
    }
  }
}
