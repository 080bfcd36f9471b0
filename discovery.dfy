/** Raw discovery of the Terraform workflow: the assets and the dependency edges
    read from the parsed configuration, with the fallback used when the
    configuration does not parse. The parser's result is an input: `None` when it
    throws, otherwise its resources in the order the parsed object lists them. */
module Discovery {
  import opened Strings
  import opened Assets

  /** A resource's `depends_on` attribute as the parser returns it. */
  datatype DependsOn = Absent | Scalar(dep: string) | List(deps: seq<string>)

  /** One `resource "<rtype>" "<name>" { … }` block. */
  datatype Resource = Resource(rtype: string, name: string, dependsOn: DependsOn)

  function ResourceId(r: Resource): string {
    r.rtype + "." + r.name
  }

  /** The dependencies walked for one resource: an array as it is, any other
      truthy value as a one-element array; an absent attribute or an empty
      string is falsy and gives none. */
  function DepsOf(d: DependsOn): seq<string> {
    match d
    case Absent => []
    case Scalar(x) => if x == "" then [] else [x]
    case List(xs) => xs
  }

  /** The asset a parsed resource becomes. */
  function ResourceAsset(r: Resource): Asset {
    Asset(ResourceId(r), ResourceId(r), r.rtype, "", 1, None)
  }

  /** The placeholder asset for the file at position `idx` when parsing fails. */
  function FallbackAsset(path: string, idx: nat): Asset {
    Asset("asset_" + NatToString(idx), "Resource" + NatToString(idx + 1), "resource", path, 1, None)
  }

  function DependencyEdge(from: string, dep: string): Edge {
    Edge(from, dep, "depends_on", from + " depends on " + dep)
  }

  function ChainEdge(a: Asset, b: Asset): Edge {
    Edge(a.id, b.id, "depends_on", "Dependency from " + a.name + " to " + b.name)
  }

  /** The edges of one resource, one per dependency, in order. */
  function ResourceEdges(r: Resource): (es: seq<Edge>)
    ensures |es| == |DepsOf(r.dependsOn)|
    ensures forall k :: 0 <= k < |es| ==> es[k] == DependencyEdge(ResourceId(r), DepsOf(r.dependsOn)[k])
  {
    var deps := DepsOf(r.dependsOn);
    seq(|deps|, k requires 0 <= k < |deps| => DependencyEdge(ResourceId(r), deps[k]))
  }

  /** The edges of all resources, resource by resource. */
  function DependencyEdges(rs: seq<Resource>): seq<Edge>
    decreases |rs|
  {
    if rs == [] then [] else DependencyEdges(rs[..|rs| - 1]) + ResourceEdges(rs[|rs| - 1])
  }

  /** The number of declared dependencies of all resources. */
  function DependencyCount(rs: seq<Resource>): nat
    decreases |rs|
  {
    if rs == [] then 0 else DependencyCount(rs[..|rs| - 1]) + |DepsOf(rs[|rs| - 1].dependsOn)|
  }

  /** The assets `identifyAssets` discovers. */
  function DiscoveredAssets(files: seq<string>, parsed: Option<seq<Resource>>): seq<Asset> {
    match parsed
    case Some(rs) => seq(|rs|, i requires 0 <= i < |rs| => ResourceAsset(rs[i]))
    case None => seq(|files|, i requires 0 <= i < |files| => FallbackAsset(files[i], i))
  }

  /** The chain the fallback path links the assets with, each to the next. */
  function ChainEdges(assets: seq<Asset>): seq<Edge> {
    if |assets| == 0 then []
    else seq(|assets| - 1, i requires 0 <= i < |assets| - 1 => ChainEdge(assets[i], assets[i + 1]))
  }

  /** The graph `mapRelationships` builds. */
  function RawGraph(assets: seq<Asset>, parsed: Option<seq<Resource>>): AssetGraph {
    AssetGraph(NodesOf(assets), if parsed.Some? then DependencyEdges(parsed.value) else ChainEdges(assets))
  }

  /** `identifyAssets` after the files are read: one asset per parsed resource,
      or one placeholder per file when the configuration does not parse. */
  method IdentifyAssets(files: seq<string>, parsed: Option<seq<Resource>>) returns (assets: seq<Asset>)
    ensures parsed.Some? ==> |assets| == |parsed.value|
    ensures parsed.Some? ==> forall i :: 0 <= i < |assets| ==> assets[i] == ResourceAsset(parsed.value[i])
    ensures parsed.None? ==> |assets| == |files|
    ensures parsed.None? ==> forall i :: 0 <= i < |assets| ==> assets[i] == FallbackAsset(files[i], i)
    ensures assets == DiscoveredAssets(files, parsed)
  {
    assets := [];
    match parsed
    case Some(rs) =>
      var i := 0;
      while i < |rs|
        invariant 0 <= i <= |rs| && |assets| == i
        invariant forall j :: 0 <= j < i ==> assets[j] == ResourceAsset(rs[j])
      {
        assets := assets + [ResourceAsset(rs[i])];
        i := i + 1;
      }
    case None =>
      var idx := 0;
      while idx < |files|
        invariant 0 <= idx <= |files| && |assets| == idx
        invariant forall j :: 0 <= j < idx ==> assets[j] == FallbackAsset(files[j], j)
      {
        assets := assets + [FallbackAsset(files[idx], idx)];
        idx := idx + 1;
      }
  }

  /** `mapRelationships` after the files are read: a node per asset, and either
      the declared dependency edges or, when the configuration does not parse,
      a chain linking each asset to the next. */
  method MapRelationships(assets: seq<Asset>, parsed: Option<seq<Resource>>) returns (graph: AssetGraph)
    ensures graph.nodes == NodesOf(assets)
    ensures parsed.Some? ==> graph.edges == DependencyEdges(parsed.value)
    ensures parsed.None? ==> |graph.edges| == (if |assets| == 0 then 0 else |assets| - 1)
    ensures parsed.None? ==> forall i :: 0 <= i < |graph.edges| ==> graph.edges[i] == ChainEdge(assets[i], assets[i + 1])
    ensures graph == RawGraph(assets, parsed)
  {
    var edges: seq<Edge> := [];
    match parsed {
      case Some(rs) =>
      var i := 0;
      while i < |rs|
        invariant 0 <= i <= |rs|
        invariant edges == DependencyEdges(rs[..i])
      {
        var r := rs[i];
        var deps := DepsOf(r.dependsOn);
        var k := 0;
        while k < |deps|
          invariant 0 <= k <= |deps|
          invariant edges == DependencyEdges(rs[..i]) + ResourceEdges(r)[..k]
        {
          edges := edges + [DependencyEdge(ResourceId(r), deps[k])];
          k := k + 1;
        }
        assert ResourceEdges(r)[..k] == ResourceEdges(r);
        assert rs[..i + 1][..i] == rs[..i];
        i := i + 1;
      }
      assert rs[..i] == rs;
    case None =>
      var i := 0;
      while i < |assets| - 1
        invariant 0 <= i <= (if |assets| == 0 then 0 else |assets| - 1) && |edges| == i
        invariant forall j :: 0 <= j < i ==> edges[j] == ChainEdge(assets[j], assets[j + 1])
      {
        edges := edges + [ChainEdge(assets[i], assets[i + 1])];
        i := i + 1;
      }
    }
    graph := AssetGraph(NodesOf(assets), edges);
  }

  /** Exactly one `depends_on` edge per declared dependency, from the resource
      that declares it to the dependency, and nothing else. */
  lemma {:induction false} DependencyEdgesFaithful(rs: seq<Resource>)
    ensures |DependencyEdges(rs)| == DependencyCount(rs)
    ensures forall e :: e in DependencyEdges(rs) ==>
      (e.kind == "depends_on"
       && exists r :: r in rs && e == DependencyEdge(ResourceId(r), e.to) && e.to in DepsOf(r.dependsOn))
    ensures forall r, d :: r in rs && d in DepsOf(r.dependsOn) ==> DependencyEdge(ResourceId(r), d) in DependencyEdges(rs)
    decreases |rs|
  {
    if rs != [] {
      var init, last := rs[..|rs| - 1], rs[|rs| - 1];
      DependencyEdgesFaithful(init);
      var es := ResourceEdges(last);
      forall e | e in DependencyEdges(rs)
        ensures e.kind == "depends_on"
          && exists r :: r in rs && e == DependencyEdge(ResourceId(r), e.to) && e.to in DepsOf(r.dependsOn)
      {
        if e in DependencyEdges(init) {
          var r :| r in init && e == DependencyEdge(ResourceId(r), e.to) && e.to in DepsOf(r.dependsOn);
          assert r in rs;
        } else {
          var k :| 0 <= k < |es| && es[k] == e;
          assert e.to == DepsOf(last.dependsOn)[k];
        }
      }
      forall r, d | r in rs && d in DepsOf(r.dependsOn)
        ensures DependencyEdge(ResourceId(r), d) in DependencyEdges(rs)
      {
        if r in init {
        } else {
          assert r == last;
          var k :| 0 <= k < |DepsOf(r.dependsOn)| && DepsOf(r.dependsOn)[k] == d;
          assert es[k] == DependencyEdge(ResourceId(r), d);
        }
      }
    }
  }

  /** A scalar dependency counts as a one-element list; an empty string counts as none. */
  lemma ScalarDependency(t: string, n: string, dep: string)
    ensures ResourceEdges(Resource(t, n, Scalar(dep)))
            == if dep == "" then [] else ResourceEdges(Resource(t, n, List([dep])))
  {
  }

  /** The placeholder assets have pairwise distinct ids. */
  lemma FallbackIdsDistinct(files: seq<string>, i: nat, j: nat)
    requires i < j < |files|
    ensures FallbackAsset(files[i], i).id != FallbackAsset(files[j], j).id
  {
    var p := "asset_";
    if (p + NatToString(i)) == (p + NatToString(j)) {
      assert NatToString(i) == (p + NatToString(i))[|p|..];
      NatToStringInjective(i, j);
    }
  }

  /** Two resources whose types hold no dot get the same id only when they have the same type and name. */
  lemma ResourceIdInjective(r1: Resource, r2: Resource)
    requires '.' !in r1.rtype && '.' !in r2.rtype
    requires ResourceId(r1) == ResourceId(r2)
    ensures r1.rtype == r2.rtype && r1.name == r2.name
  {
    SplitAtSeparator(r1.rtype, r1.name, '.');
    SplitAtSeparator(r2.rtype, r2.name, '.');
    assert ResourceId(r1) == r1.rtype + ['.'] + r1.name;
    assert ResourceId(r2) == r2.rtype + ['.'] + r2.name;
    assert r1.rtype == Split(ResourceId(r1), '.')[0] == r2.rtype;
    assert r1.name == ResourceId(r1)[|r1.rtype| + 1..];
    assert r2.name == ResourceId(r2)[|r2.rtype| + 1..];
  }

  /** Every dependency edge starts at one of the assets discovered from the same resources. */
  lemma DependencyEdgesStartAtAssets(rs: seq<Resource>)
    ensures forall e :: e in DependencyEdges(rs) ==>
      exists i :: 0 <= i < |rs| && e.from == ResourceAsset(rs[i]).id
  {
    DependencyEdgesFaithful(rs);
    forall e | e in DependencyEdges(rs)
      ensures exists i :: 0 <= i < |rs| && e.from == ResourceAsset(rs[i]).id
    {
      var r :| r in rs && e == DependencyEdge(ResourceId(r), e.to) && e.to in DepsOf(r.dependsOn);
      var i :| 0 <= i < |rs| && rs[i] == r;
      assert e.from == ResourceAsset(rs[i]).id;
    }
  }
}
