# Terraform threat modeler: asset discovery and consolidation

This project models the core of the Terraform threat modeler of a VS Code
chat extension and proves properties of that model. The modeler works in two
phases:

- **Discovery.** Each Terraform resource becomes a raw asset. Each
  `depends_on` entry becomes a raw edge.
- **Consolidation.** The raw assets are merged into a small number of
  architectural systems. When `terraform graph` produces a DOT graph, the
  clusters of that graph drive the merge. Without the graph, keyword tables
  assign each resource type to an architectural layer.

The model covers these parts:

- the workflow that runs the two phases (`ThreatModelingWorkflow.ts`);
- its Mermaid rendering;
- the systems summary that opens the threat-analysis prompt;
- the per-conversation `StateManager`.

Modules, one per file, follow the program's structure:

| module | file | what it holds |
|---|---|---|
| `Strings` | `strings.dfy` | the JavaScript string built-ins the code relies on: `includes`, `startsWith`, `split`, `join`, `replace`, `toLowerCase`, number formatting |
| `Lists` | `lists.dfy` | `filter`, order-preserving subsequences, `slice(0, n)`, first maximum (`reduce`) |
| `Groups` | `groups.dfy` | a JavaScript `Map` of arrays or sets, as entries in insertion order |
| `Assets` | `assets.dfy` | `ThreatAsset`, `GraphNode`, `GraphEdge`, `AssetGraph`, the workflow result |
| `Discovery` | `discovery.dfy` | `identifyAssets` and `mapRelationships` over the parsed HCL |
| `Classify` | `classify.dfy` | the keyword tables: layer, component, importance score, type family, related types, purposes, display names |
| `Clusters` | `clusters.dfy` | reading the DOT graph: edge lines, `[root]` stripping, `findCommonPattern`, the cluster map |
| `Ranking` | `ranking.dfy` | `getKeyResources`: the in-place stable sort by score, then the top three names |
| `Consolidation` | `consolidation.dfy` | both consolidation strategies, `performArchitecturalAnalysis`, `consolidateRelationships` |
| `Summary` | `summary.dfy` | the systems summary lines |
| `Workflow` | `workflow.dfy` | `run`, `consolidate`, `generateMermaidDiagram` |
| `ConversationState` | `state.dfy` | `StateManager` |

Each loop the source writes is a Dafny method with a `while` loop. Each such
method is proved equal to a specification function. The properties are then
proved about those functions:

- `IdentifyAssets` and `MapRelationships`;
- the DOT edge scan, the edge grouping and the size filter;
- the three consolidation loops;
- `getLongestCommonPrefix`;
- the Mermaid renderer.

`getKeyResources` sorts its argument in place, so it works on an `array`. It
is proved against a functional stable insertion sort. `StateManager` updates
its map in place, so it is a class.

Inputs the code obtains from the outside world are parameters:

- The result of `hclToJson` on the concatenated files is
  `parsed: Option<seq<Resource>>`. `None` is the parser's exceptional path.
- The text printed by `terraform graph` is `graph: Option<string>`. `None` is
  the path where both commands failed.
- Files are given by their paths.

Where the code and the written description of the system differ, the model
follows the code. Lemmas record each of the four differences:

- **`Ranking.CleanName` keeps dots.** It strips a leading `aws_` and turns
  every `_` into a space, and nothing else. `Ranking.CleanNameKeepsDot`
  shows that `aws_lambda_function.f` becomes `lambda function.f`, with the
  dot kept.
- **The graph strategy can grow.** `Consolidation.GraphPathCanGrow` and
  `Consolidation.RepeatedCluster` show that it can return more assets than it
  was given. Cluster members are found by substring match, so one raw asset
  can sit in several clusters. The "never more assets than raw" bound holds
  only without the graph, by `Consolidation.NoGraphBound`.
- **`findCommonPattern` depends on argument order.**
  `Clusters.CommonPatternOrderMatters` shows this. The family is taken from
  the first type: `aws_vpc` + `aws_route_table` gives `network_system`, and
  the reverse gives `infrastructure_system`.
- **Sanitised Mermaid ids can collide.** `Workflow.SanitizeMerges` shows that
  two different ids can give the same node id.

## Model

| member | source | states |
|---|---|---|
| Discovery.IdentifyAssets | src/threatModelers/TerraformThreatModeler.ts:9-44 | one asset per parsed resource, with id and name `type.name`, in parse order; on parse failure, one fallback asset `asset_i`/`Resource(i+1)` of type `resource` per file, in file order |
| Discovery.ResourceEdges | src/threatModelers/TerraformThreatModeler.ts:66-76 | a resource yields one `depends_on` edge per dependency, in order, from its own id |
| Discovery.MapRelationships | src/threatModelers/TerraformThreatModeler.ts:46-98 | one node per asset carrying that asset; with a parse, exactly the dependency edges; without, the chain edges `assets[i] -> assets[i+1]`, one fewer than the assets |
| Discovery.DependencyEdgesFaithful | src/threatModelers/TerraformThreatModeler.ts:63-77 | the dependency edges are exactly the pairs (resource, one of its dependencies): every such edge is present, every edge is one, all of kind `depends_on` |
| Discovery.ScalarDependency | src/threatModelers/TerraformThreatModeler.ts:67-68 | a single `depends_on` value acts as a one-element list, and an empty one as no dependency |
| Discovery.FallbackIdsDistinct | src/threatModelers/TerraformThreatModeler.ts:36-42 | fallback assets of different files have different ids |
| Discovery.ResourceIdInjective | src/threatModelers/TerraformThreatModeler.ts:23-24 | when types have no dot, the id `type.name` determines type and name |
| Discovery.DependencyEdgesStartAtAssets | src/threatModelers/TerraformThreatModeler.ts:66-74 | every dependency edge starts at the id of a discovered asset |
| Summary.FindPrefixed | src/threatModelers/TerraformThreatModeler.ts:103-104 | `find(startsWith)`: none exactly when no annotation has the prefix, otherwise the first one that has it |
| Summary.Field | src/threatModelers/TerraformThreatModeler.ts:103-104 | with a non-empty fallback for a missing or empty value, the shown field is never empty |
| Summary.SummaryLines | src/threatModelers/TerraformThreatModeler.ts:101-109 | one summary line per asset, in asset order |
| Summary.SystemsSummary | src/threatModelers/TerraformThreatModeler.ts:101-109 | the summary lines joined by newlines, empty exactly when there are no assets; `Summary.SystemLine`, `Summary.SystemSummaryLine` and `Summary.IndividualSummaryLine` give each line its meaning |
| Summary.SystemsSummarySplits | src/threatModelers/TerraformThreatModeler.ts:101-109 | when no line holds a newline, the summary splits back into exactly its lines, one per asset |
| Summary.FindPrefixedFirst | src/threatModelers/TerraformThreatModeler.ts:103-104 | the first annotation with the prefix is the one found |
| Summary.FieldReadsValue | src/threatModelers/TerraformThreatModeler.ts:103-104 | an annotation `tag + value` under its key reads back as `value` |
| Summary.SystemLine | src/threatModelers/TerraformThreatModeler.ts:102-105 | a system line shows the resource count and the purpose annotations |
| Summary.SystemSummaryLine | src/threatModelers/TerraformThreatModeler.ts:102-105 | the line of a layer system reads `- **layer**: N components (purpose)`: the annotations written at consolidation are the ones read back |
| Summary.IndividualSummaryLine | src/threatModelers/TerraformThreatModeler.ts:106-108 | any other asset is listed as an individual component of its type |
| Consolidation.ConsolidateRelationships | src/threatModelers/TerraformThreatModeler.ts:213-221 | exactly the raw edges whose two ends are consolidated ids, in their original order; `Consolidation.ConsolidateRelationshipsCounts` adds that each is kept as often as it occurs |
| Consolidation.ConsolidateRelationshipsCounts | src/threatModelers/TerraformThreatModeler.ts:218-220 | a raw edge between two consolidated ids occurs in the result exactly as many times as among the raw edges, so a dependency listed twice stays twice; any other edge occurs zero times |
| Consolidation.PerformArchitecturalAnalysis | src/threatModelers/TerraformThreatModeler.ts:223-236 | the graph strategy when graph text is present and non-empty, the layer strategy otherwise |
| Consolidation.NoGraphBound | src/threatModelers/TerraformThreatModeler.ts:229-235 | without a graph, consolidation never yields more assets than it was given |
| Clusters.ExtractClusters | src/threatModelers/TerraformThreatModeler.ts:289-333 | the edge scan, grouping and size filter compute the cluster map of the DOT text |
| Clusters.CollectEdges | src/threatModelers/TerraformThreatModeler.ts:297-302 | the edges are the matches of the edge lines, in line order; an edge is collected exactly when some line matches to it |
| Clusters.MatchEdgeLine | src/threatModelers/TerraformThreatModeler.ts:298 | a match captures two non-empty quote-free labels |
| Clusters.MatchEdgeLineOf | src/threatModelers/TerraformThreatModeler.ts:298 | a line of leading spaces, then `"x"`, then ` -> "y"`, matches with exactly those labels |
| Clusters.ArrowLabelOf | src/threatModelers/TerraformThreatModeler.ts:298 | the arrow part `\s*->\s*"y"` captures `y` |
| Clusters.NoQuoteNoEdge | src/threatModelers/TerraformThreatModeler.ts:298 | a line without a double quote is never an edge |
| Clusters.AddEdge | src/threatModelers/TerraformThreatModeler.ts:309-321 | an edge with a common pattern adds both raw endpoints to that pattern's set; an edge without one changes nothing |
| Clusters.GroupLabels | src/threatModelers/TerraformThreatModeler.ts:305-323 | the `forEach` over edges builds the pattern-to-labels map |
| Clusters.LabelGroupsMembers | src/threatModelers/TerraformThreatModeler.ts:305-323 | a label is under a pattern exactly when it is an endpoint of an edge with that pattern, and the pattern is a key exactly when some edge has it |
| Clusters.LabelGroupsShape | src/threatModelers/TerraformThreatModeler.ts:305-323 | distinct keys, and each value set is non-empty and free of duplicates |
| Clusters.KeepLarge | src/threatModelers/TerraformThreatModeler.ts:326-330 | the map keeps only the groups of more than one label, in insertion order |
| Clusters.KeepClusters | src/threatModelers/TerraformThreatModeler.ts:326-330 | a group is kept exactly when it has more than one label |
| Clusters.KeepClustersDistinct | src/threatModelers/TerraformThreatModeler.ts:326-330 | the filtered map still has distinct keys |
| Clusters.ClustersDistinct | src/threatModelers/TerraformThreatModeler.ts:289-333 | every cluster has a distinct key and at least two labels, none repeated |
| Clusters.ClustersSound | src/threatModelers/TerraformThreatModeler.ts:297-330 | every label in a cluster is an endpoint of a matched edge whose pattern is that cluster's key |
| Clusters.ClustersComplete | src/threatModelers/TerraformThreatModeler.ts:297-330 | both endpoints of every matched edge with a cluster's key are in that cluster |
| Clusters.ClustersShape | src/threatModelers/TerraformThreatModeler.ts:289-333 | the cluster map of any DOT text has distinct keys and clusters of at least two distinct labels |
| Clusters.ExtractResourceBase | src/threatModelers/TerraformThreatModeler.ts:335-340 | the base is the node itself or a non-empty part of it |
| Clusters.StripRoot | src/threatModelers/TerraformThreatModeler.ts:337-339 | `[root] addr` yields `addr` |
| Clusters.NoRootUnchanged | src/threatModelers/TerraformThreatModeler.ts:338-339 | a node without `[root]` is its own base |
| Clusters.CommonPrefix | src/threatModelers/TerraformThreatModeler.ts:394-400 | a prefix of both strings, and the strings differ just past it |
| Clusters.CommonPrefixUnique | src/threatModelers/TerraformThreatModeler.ts:394-400 | any prefix of both at which they differ, or one ends, is the longest common prefix |
| Clusters.LongestCommonPrefix | src/threatModelers/TerraformThreatModeler.ts:394-400 | the loop returns the longest common prefix |
| Clusters.CommonPattern | src/threatModelers/TerraformThreatModeler.ts:342-366 | `findCommonPattern`: a key is a type family tag or `p_group` with `p` longer than three characters; `Clusters.CommonPatternNeedsDots`, `Clusters.CommonPatternFamily` and `Clusters.CommonPatternPrefix` say which it is when |
| Clusters.CommonPatternNeedsDots | src/threatModelers/TerraformThreatModeler.ts:344-347 | a name without a dot never has a common pattern |
| Clusters.CommonPatternFamily | src/threatModelers/TerraformThreatModeler.ts:354-356 | equal or related types give the type family of the first type |
| Clusters.CommonPatternPrefix | src/threatModelers/TerraformThreatModeler.ts:358-365 | unrelated types give `prefix_group` when the names share more than three leading characters, otherwise nothing |
| Clusters.CommonPatternOrderMatters | src/threatModelers/TerraformThreatModeler.ts:354-356 | `aws_vpc` then `aws_route_table` gives `network_system`; the reverse order gives `infrastructure_system` |
| Classify.AreRelatedTypes | src/threatModelers/TerraformThreatModeler.ts:368-381 | `areRelatedTypes`: some group of the table lists both types, and then both are `aws_` types; `Classify.RelatedTypesAreListed` adds symmetry |
| Classify.RelatedTypesAreListed | src/threatModelers/TerraformThreatModeler.ts:368-381 | relatedness is symmetric, and only `aws_` types are related |
| Classify.VpcRouteTableRelated | src/threatModelers/TerraformThreatModeler.ts:375-380 | `aws_vpc` and `aws_route_table` are related both ways |
| Classify.TypeFamily | src/threatModelers/TerraformThreatModeler.ts:383-392 | the family is one of the seven family tags |
| Classify.TypeFamilyIsFirstMatch | src/threatModelers/TerraformThreatModeler.ts:383-392 | the family is the outcome of the first of the six family rules with a keyword in the type, matched case-sensitively, and `infrastructure_system` when none matches |
| Classify.TypeFamilyOfVpc | src/threatModelers/TerraformThreatModeler.ts:388 | `aws_vpc` is in `network_system` |
| Classify.TypeFamilyOfRouteTable | src/threatModelers/TerraformThreatModeler.ts:383-391 | `aws_route_table` hits no family keyword and is in `infrastructure_system` |
| Consolidation.ConsolidateByGraphClusters | src/threatModelers/TerraformThreatModeler.ts:402-436 | the loop computes the graph consolidation: cluster assets in map order, then the high-level components of the ungrouped assets |
| Consolidation.ClusterFor | src/threatModelers/TerraformThreatModeler.ts:407-427 | one cluster's output and the ids it claims |
| Consolidation.ClusterOutput | src/threatModelers/TerraformThreatModeler.ts:412-427 | one `architectural_cluster` asset with id `cluster_key` exactly when more than one raw asset is named, nothing otherwise |
| Consolidation.ClusterMembersNamed | src/threatModelers/TerraformThreatModeler.ts:408-410 | a raw asset is a cluster member exactly when its name occurs inside one of the cluster's labels |
| Consolidation.ClusterAssetsMembers | src/threatModelers/TerraformThreatModeler.ts:407-428 | an asset is a cluster asset exactly when some cluster outputs it |
| Consolidation.GroupedIdsIff | src/threatModelers/TerraformThreatModeler.ts:426 | an id is grouped exactly when it belongs to a member of some cluster of more than one member |
| Consolidation.NoAssetLost | src/threatModelers/TerraformThreatModeler.ts:430-431 | each raw asset is either ungrouped or a member of some output cluster; the ungrouped assets keep their order |
| Consolidation.GraphPathCanGrow | src/threatModelers/TerraformThreatModeler.ts:402-436 | two raw assets under three clusters give three consolidated assets |
| Consolidation.RepeatedCluster | src/threatModelers/TerraformThreatModeler.ts:407-428 | the same labels under three keys yield three cluster assets and claim every raw id |
| Classify.ArchitecturalName | src/threatModelers/TerraformThreatModeler.ts:438-450 | a family tag gets its display name; any other key gets underscores turned into spaces, plus ` System`; no display name shows an underscore |
| Classify.ArchitecturalNamesDistinct | src/threatModelers/TerraformThreatModeler.ts:439-447 | the seven family tags have pairwise different display names |
| Classify.GroupKeyName | src/threatModelers/TerraformThreatModeler.ts:438-450 | a `prefix_group` key is shown as the prefix with spaces, then ` group System`, which is no family's display name |
| Clusters.PatternDisplayName | src/threatModelers/TerraformThreatModeler.ts:342-366 | every key `findCommonPattern` gives is shown either by its family's name or by a name ending in ` group System` that no family has, so a name-prefix cluster never passes for a family |
| Consolidation.CreateHighLevelArchitecturalComponents | src/threatModelers/TerraformThreatModeler.ts:452-498 | the grouping loop and the output loop compute the layer strategy's systems |
| Consolidation.ComponentFor | src/threatModelers/TerraformThreatModeler.ts:468-494 | the output for one layer |
| Consolidation.SystemOutput | src/threatModelers/TerraformThreatModeler.ts:469-493 | a layer of two or more gives one system asset; a single resource is kept, with its name cleaned, exactly when its score is at least 7 |
| Consolidation.ArchitecturalSystemsBound | src/threatModelers/TerraformThreatModeler.ts:452-498 | at most one output per layer, and no more layers than raw assets |
| Consolidation.ArchitecturalSystemsMembers | src/threatModelers/TerraformThreatModeler.ts:457-494 | an asset is output exactly when it is the output of the layer of some raw asset, over all that layer's members |
| Consolidation.LargeLayerBecomesSystem | src/threatModelers/TerraformThreatModeler.ts:469-483 | a layer of at least two raw assets yields its system asset |
| Consolidation.SingletonLayer | src/threatModelers/TerraformThreatModeler.ts:484-493 | a layer of one asset keeps it, renamed, when its score is at least 7, and drops it otherwise |
| Consolidation.CreateHighLevelComponents | src/threatModelers/TerraformThreatModeler.ts:500-535 | the filter, grouping and output loops compute the high-level components |
| Consolidation.LayerFor | src/threatModelers/TerraformThreatModeler.ts:518-532 | the output for one component layer |
| Consolidation.LayerOutput | src/threatModelers/TerraformThreatModeler.ts:519-531 | more than two members give one `infrastructure_layer` asset; at most two are passed through unchanged |
| Consolidation.HighLevelComponentsBound | src/threatModelers/TerraformThreatModeler.ts:500-535 | never more components than significant assets, nor than inputs |
| Consolidation.HighLevelComponentsMembers | src/threatModelers/TerraformThreatModeler.ts:502-532 | an asset is output exactly when it is the output of the component layer of some significant asset |
| Consolidation.HighLevelComponentsKeepSignificant | src/threatModelers/TerraformThreatModeler.ts:502-531 | every passed-through asset is a significant input whose layer has at most two members |
| Consolidation.Slug | src/threatModelers/TerraformThreatModeler.ts:473 | the generated id suffix holds no white space |
| Classify.HighLevelArchitecture | src/threatModelers/TerraformThreatModeler.ts:537-580 | the layer is one of the eight high-level layers |
| Classify.HighLevelArchitectureIsFirstMatch | src/threatModelers/TerraformThreatModeler.ts:537-580 | the layer is the first rule, in table order, with a keyword in the lower-cased type |
| Classify.SystemPurpose | src/threatModelers/TerraformThreatModeler.ts:582-595 | an unknown layer gets `Infrastructure component`; the purpose is never empty |
| Classify.EveryLayerHasPurpose | src/threatModelers/TerraformThreatModeler.ts:582-595 | every layer the classifier returns has its own purpose, not the default |
| Ranking.GetKeyResources | src/threatModelers/TerraformThreatModeler.ts:597-610 | the caller's array is left sorted by score, and the result holds the cleaned names of its first three |
| Ranking.SortInPlace | src/threatModelers/TerraformThreatModeler.ts:599-603 | the array ends equal to the stable descending sort of its old contents |
| Ranking.InsertInPlace | src/threatModelers/TerraformThreatModeler.ts:599-603 | one insertion step puts `a[i]` into the sorted prefix and leaves the rest alone |
| Ranking.SortByOrdered | src/threatModelers/TerraformThreatModeler.ts:599-603 | the sorted sequence is non-increasing by score |
| Ranking.SortByPermutation | src/threatModelers/TerraformThreatModeler.ts:599-603 | the sorted sequence is a permutation of the input |
| Ranking.SortByStable | src/threatModelers/TerraformThreatModeler.ts:599-603 | assets of equal score keep their relative order |
| Ranking.KeyResourcesTop | src/threatModelers/TerraformThreatModeler.ts:597-610 | `min(3, n)` names, each the cleaned name of a sorted input asset, none outranked by an asset left out |
| Ranking.CleanName | src/threatModelers/TerraformThreatModeler.ts:607 | the cleaned name has no underscore and is no longer than the original |
| Ranking.CleanNameKeepsDot | src/threatModelers/TerraformThreatModeler.ts:607 | `aws_lambda_function.f` is cleaned to `lambda function.f`: the dot stays |
| Ranking.CleanNameIdempotent | src/threatModelers/TerraformThreatModeler.ts:607 | cleaning twice is cleaning once |
| Classify.ImportanceScore | src/threatModelers/TerraformThreatModeler.ts:612-626 | the score is one of 1, 2, 3, 5, 6, 7, 8, 9, 10 |
| Classify.ImportanceScoreIsFirstMatch | src/threatModelers/TerraformThreatModeler.ts:612-626 | the score is that of the first rule with a keyword in the lower-cased type |
| Classify.KeptSingletonIff | src/threatModelers/TerraformThreatModeler.ts:487 | a score of at least 7 exactly when the type holds one of the keywords of the 7-to-10 rules |
| Classify.SelectMostImportantResource | src/threatModelers/TerraformThreatModeler.ts:628-636 | none exactly for no assets; otherwise an asset of maximal score, the first such, as `reduce` with a strict comparison keeps the earlier one on ties |
| Classify.IsArchitecturallySignificant | src/threatModelers/TerraformThreatModeler.ts:638-640 | `isArchitecturallySignificant`: an importance score of at least 5; by `Classify.SignificantIff`, exactly when the lower-cased type holds a keyword of the rules scoring 5 or more |
| Classify.SignificantIff | src/threatModelers/TerraformThreatModeler.ts:638-640 | significant exactly when the type holds one of the keywords of the rules scoring 5 or more |
| Classify.ArchitecturalComponent | src/threatModelers/TerraformThreatModeler.ts:738-759 | the component is one of the eight component layers |
| Classify.ArchitecturalComponentIsFirstMatch | src/threatModelers/TerraformThreatModeler.ts:738-759 | the component is the first rule with a keyword in the lower-cased type |
| Groups.Fill | src/threatModelers/TerraformThreatModeler.ts:455-463 | the `forEach` that creates a missing array and pushes onto it builds the grouping in insertion order |
| Groups.GroupByKeys | src/threatModelers/TerraformThreatModeler.ts:455-463 | the map has distinct keys, one per key that occurs among the elements |
| Groups.GroupByMembers | src/threatModelers/TerraformThreatModeler.ts:455-463 | each key's array holds exactly the elements with that key, in input order, and is non-empty |
| Groups.GroupBySize | src/threatModelers/TerraformThreatModeler.ts:455-463 | no more keys than elements, and the arrays together hold every element once |
| Groups.AddUniqueLookup | src/threatModelers/TerraformThreatModeler.ts:316-320 | adding to a set under a key appends the value when it is new, and creates the key when missing |
| Workflow.Run | src/threatModelers/ThreatModelingWorkflow.ts:40-52 | raw discovery: the discovered assets, their raw graph, no threats |
| Workflow.ConsolidatedGraphClosed | src/threatModelers/ThreatModelingWorkflow.ts:63-69 | the consolidated graph's node ids are exactly the consolidated ids, every edge joins two nodes, and the edges are raw edges in order |
| Workflow.Consolidate | src/threatModelers/ThreatModelingWorkflow.ts:55-72 | the consolidated assets, and a graph of their nodes with the filtered raw edges |
| Workflow.Sanitize | src/threatModelers/ThreatModelingWorkflow.ts:80 | same length, only letters, digits and `_`, and a character is kept exactly when it is an id character |
| Workflow.SanitizeIdempotent | src/threatModelers/ThreatModelingWorkflow.ts:80 | a clean id is unchanged, so sanitising twice is sanitising once |
| Workflow.SanitizeMerges | src/threatModelers/ThreatModelingWorkflow.ts:86-87 | ids that differ in one non-alphanumeric character give the same node id |
| Workflow.SanitizeSingleLine | src/threatModelers/ThreatModelingWorkflow.ts:80 | a sanitised id never holds a newline |
| Workflow.DiagramLines | src/threatModelers/ThreatModelingWorkflow.ts:76-89 | the header `graph TD`, then one line per node and one per edge |
| Workflow.GenerateMermaidDiagram | src/threatModelers/ThreatModelingWorkflow.ts:75-92 | the two loops produce the diagram lines joined by newlines |
| Workflow.DiagramSplitsIntoLines | src/threatModelers/ThreatModelingWorkflow.ts:75-92 | when no label holds a newline, splitting the diagram at newlines gives back its `1 + nodes + edges` lines, and it starts with `graph TD` |
| ConversationState.Lookup | src/state/ConversationState.ts:21-23 | a stored state is returned as stored; an unknown conversation is at `start` |
| ConversationState.SetThenGet | src/state/ConversationState.ts:25-27 | after a set, the conversation reads the new state and all others are unchanged |
| ConversationState.ClearThenGet | src/state/ConversationState.ts:29-31 | after a clear, the conversation reads `start` and all others are unchanged |
| ConversationState.SetThenClear | src/state/ConversationState.ts:25-31 | set then cleared equals cleared: no trace of the set remains |
| ConversationState.StateManager.constructor | src/state/ConversationState.ts:10-12 | a new manager holds no state |
| ConversationState.StateManager.GetState | src/state/ConversationState.ts:21-23 | the state stored for the conversation, or the start state |
| ConversationState.StateManager.SetState | src/state/ConversationState.ts:25-27 | the map gains or replaces exactly that entry |
| ConversationState.StateManager.ClearState | src/state/ConversationState.ts:29-31 | the map loses exactly that entry |

## Left out

### Inputs and effects

- **File reading and HCL parsing.** Reading the files and running `hclToJson`
  are outside the model. Their result is the `parsed` parameter, a sequence of
  (type, name, `depends_on`) in the order `Object.entries` visits them. Other
  fields of a resource's configuration are never read by the code.
- **`generateTerraformGraph`.** Running the `terraform graph` commands, with
  their working directory and timeout, is outside the model. Its outcome is
  the `graph` parameter.
- **Logging.** All `console.log` and `console.error` calls are left out;
  nothing depends on them.

### Prompts and the LLM path

- **Prompt text beyond the summary.** `generateThreatAnalysisPrompt` is
  modelled only for its systems summary. The rest of the prompt is fixed prose
  around it.
- **Prompt builders.** `generateArchitecturalAnalysisPrompt`,
  `generateAssetThreatPrompt`, `generateRelationshipThreatPrompt` and
  `generateAnalysisContext` build prompt text for the language model.
- **Unused helpers.** `getAllHclContent`, `createArchitecturalComponents`,
  `getComponentPurpose` and `categorizeAssetsByArchitecture` are left out.
  They read the workspace or serve the LLM path, which the consolidation
  above never calls.
- **Chat and prerequisites.** `analyzeThreats`, `checkPrerequisites`,
  `initializeProject` and the chat participant talk to VS Code, the language
  model or a shell.

### State and data

- ConversationState.StateManager.GetState: states are values here. The source
  stores each `ConversationState` object by reference and `getState` hands out
  the stored object itself, which the chat participant then changes in place
  before it calls `setState`. A change made that way is visible in the store
  even when `setState` is never reached, for example when the analysis throws
  first. The model does not capture that aliasing: a manager's map changes
  only through `SetState` and `ClearState`.
- **`getInstance`.** The lazy singleton is not modelled. A `StateManager` is
  built directly, so several managers can exist in the model.
- **The `analysis` field.** It has type `any` and is never read by the
  modelled code.
- **Asset fields.** `file` and `line` are carried along unchanged. No property
  is stated about them.

### Strings and the graph path

- Strings.ToLower: maps ASCII letters only. JavaScript's `toLowerCase` also
  folds non-ASCII letters. Every keyword in the tables is lower-case ASCII, so
  a match can differ only for non-ASCII type names.
- Strings.IsSpace: follows the `\s` class for the characters Dafny `char`
  covers. Astral characters count as one `char`, not as two UTF-16 units.
- Workflow.Sanitize, Clusters.CommonPrefix, Clusters.CommonPattern: strings
  are sequences of characters, not of UTF-16 units. For an astral character,
  JavaScript's `/[^a-zA-Z0-9]/g` writes `__`, where `Workflow.Sanitize`
  writes one `_`. The "longer than three" test of `findCommonPattern` also
  counts UTF-16 units in JavaScript. The two agree on every type and name
  without astral characters.
- Classify.SystemPurpose, Classify.ArchitecturalName: the source's lookup
  tables are plain objects. So a key such as `toString` or `constructor`
  finds an inherited, truthy function there, not the default. The model
  gives the default for every key outside the table. The two cannot differ
  in the program. `getSystemPurpose` is only called with a layer of
  `determineHighLevelArchitecture`. `getArchitecturalName` is only called
  with a family tag or a `_group` key (`Clusters.PatternDisplayName`).
- **Graph text.** The graph path treats an empty graph text as absent, as the
  truthiness test in the source does. It splits the text at `\n` only.
  `Strings.Split` therefore leaves a `\r` at the end of a line, and the edge
  pattern does not look at the end of the line.

### Ranking

- Ranking.GetKeyResources: sorts with a stable insertion sort.
  `Array.prototype.sort` fixes the result but not the algorithm, so only the
  resulting order is modelled, not the intermediate states of the engine's
  sort.
