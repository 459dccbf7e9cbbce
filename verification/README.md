# azviz pipeline model

This project models azviz, a tool that draws Azure resource diagrams. The model covers its core in Dafny:

1. The graph builder turns discovered Azure resources and a Network Watcher topology into a directed graph:
   - filtering by exclusion pattern and by the compute-only view;
   - grouping by category depth;
   - building labelled nodes;
   - adding association, dependency and DNS-zone edges;
   - dropping redundant NIC edges;
   - storing one cluster per resource group.
2. The DOT generator turns that graph and its clusters into a Graphviz document:
   - escaped labels and pass-through node and edge attributes;
   - priority-ordered clusters with invisible ordering and VM/storage alignment edges;
   - external title nodes;
   - standalone nodes;
   - the subscription title and its positioning edge;
   - the legend.
3. The Azure client's pure parsing helpers: the category of a type, topology bucketing, association flattening and power state.
4. The export entry point:
   - resource-group normalisation;
   - combining the per-group discovery;
   - refusing an empty scan;
   - the output-extension rule.
5. The icon manager.
6. The batch tool that draws every subscription:
   - the file-name sanitiser;
   - counting resource-group rows;
   - the export command line.

## Modelling conventions

- **Python dicts** become ordered association lists (`OMaps.OMap`). `Get` and `Put` keep the dict's insertion-order semantics. `Update` is `dict.update`.
- **The networkx `DiGraph`** is `DiGraphs.DiGraph`: an ordered node map and an ordered edge map keyed by `(source, target)`. `graph.edges()` yields edges grouped by source node order, then in per-source insertion order.
- **Property bags** hold `Models.Value`: string, integer, boolean, None, list or dict. Floats are not modelled.
- **External inputs become parameters**:
  - the Azure SDK's answers (the per-group scan, the list of available groups);
  - file existence (`fileExists`);
  - the finished `subprocess` results of the batch tool (`BatchTool.Completed`);
  - the HTML-table labels that `_format_node` builds from icon files (`HtmlLabels`).
- **Python string behaviour**:
  - `str.lower`, `str.title`, `str.isspace`, `\w` and `str.isalnum` are ASCII approximations (`Text`);
  - `str.split`, `str.join` and `str.strip` are modelled exactly on those characters.

## Where the code and the documentation disagree

The model follows the code in each case.

- **Exclusion patterns.** A pattern of the form `*x*` splits into three parts. It therefore falls through to an exact, case-insensitive comparison rather than a substring match (`ResourceFilter.MatchesTwoStars`, `ResourceFilter.SubnetsWildcardMatchesNothing`).
- **Cluster priorities.** The cluster priority table in `dot_generator.py` uses levels 1 to 8 and 99. This is separate from `ResourceRanking`, which uses 1 to 6 and 99; each is modelled as written.
- **`export_diagram` cannot run as written.**
  - `azviz.py:120` calls `get_resources_in_group(rg_name, config.show_power_state)`. `client.py:101` declares the method with the group name only, so the call raises a TypeError before any graph is built.
  - `azviz.py:146` calls `self.azure_client._discover_dns_zone_relationships(all_resources)`. No method of that name exists in `client.py`.
  - The model treats discovery as a parameter that already takes the power-state flag, and the DNS post-processing as leaving the resources unchanged.
- **Node ids are not collision-free.** Two names differing only in `-` versus `_` get the same id (`NodeIds.NodeIdCollision`).
- **`models.py` lags behind its callers.**
  - `OutputFormat` lacks `HTML`, which `azviz.py` and the batch tool use.
  - `VisualizationConfig` lacks `compute_only` and `show_power_state`, which `azviz.py` passes and the graph builder reads.
  - `AzureResource` declares its dependencies as plain strings and has no `add_dependency` or `get_dependency_names`. The graph builder and the tests use dependency records with a target name, a kind and an optional description, read through those two methods.
  - The model includes all of these. Both flags default to `false` in `Models.DefaultConfig`.

## Model

| member | source | states |
|---|---|---|
| Models.ParseTheme | src/azviz/core/models.py:9-13 | a string parses to a theme exactly when it is that theme's value |
| Models.ParseFormat | src/azviz/core/models.py:16-19 | a string parses to an output format exactly when it is that format's value |
| Models.ParseDirection | src/azviz/core/models.py:29-32 | a string parses to a direction exactly when it is that direction's value |
| Models.LevelOrder | src/azviz/core/models.py:22-26 | verbosity levels are 1..3 and the `>= 2` / `>= 3` tests the label builder uses pick out standard-or-detailed and detailed |
| Models.DependencyNames | src/azviz/visualization/graph_builder.py:179 | the dependency list yields one target name per dependency, in order |
| Models.AddDependency | tests/test_basic.py:57-67 | appending a dependency keeps the earlier ones and the resource's identity, and makes the target listed |
| Models.KindNamesDistinct | src/azviz/core/models.py:87 | the edge-type strings of association, dependency and DNS edges are pairwise different |
| Models.DefaultEdge | src/azviz/core/models.py:82-88 | a new edge has an empty label, type "association" and no attributes |
| Models.GetRank | src/azviz/core/models.py:102-116 | the rank is the table entry of the lower-cased type, and 99 exactly when the type is not in the table |
| Models.GetRankIgnoresCase | src/azviz/core/models.py:114-116 | ranking ignores the case of the type |
| Models.GetRankListed | src/azviz/core/models.py:104-111 | every listed type gets its listed rank |
| Models.DefaultConfig | src/azviz/core/models.py:119-130 | the defaults: standard labels, depth 2, light theme, PNG, left-to-right, polyline splines, no exclusions, legend shown, no output file |
| NodeIds.Underscored | src/azviz/visualization/graph_builder.py:341-342 | spaces, dashes and dots become underscores; every other character, '/' included, is kept in place |
| NodeIds.UnderscoredConcat | src/azviz/visualization/graph_builder.py:341-342 | the rewrite works character by character, so it distributes over concatenation |
| NodeIds.TypeSuffix | src/azviz/visualization/graph_builder.py:341 | the type suffix holds no '/' |
| NodeIds.TypeSuffixIsLastSegment | src/azviz/visualization/graph_builder.py:341 | the type suffix is the lower-cased last '/' segment of the type |
| NodeIds.NodeIdOf | src/azviz/visualization/graph_builder.py:341-342 | a node id has no separator or upper-case letter and its length is the parts' lengths plus two underscores |
| NodeIds.NodeIdFields | src/azviz/visualization/graph_builder.py:342 | the id is category, name and type suffix, lower-cased and underscored, joined by '_' |
| NodeIds.NodeId | src/azviz/visualization/graph_builder.py:331-342 | a resource's node id contains no separator character |
| NodeIds.NodeIdIgnoresCase | src/azviz/visualization/graph_builder.py:342 | the id ignores the case of category and name |
| NodeIds.NodeIdSameRewrittenName | src/azviz/visualization/graph_builder.py:342 | names that agree after lower-casing and underscoring give the same id |
| NodeIds.NodeIdCollision | src/azviz/visualization/graph_builder.py:342 | two different names ("a-b", "a_b") of the same category and type collide on one id |
| ResourceFilter.StarPatternSplitsInTwo | src/azviz/visualization/graph_builder.py:251-256 | a pattern with a '*' never takes the single-part branch |
| ResourceFilter.MatchesWithoutStar | src/azviz/visualization/graph_builder.py:240-263 | without '*' a pattern matches exactly the types equal to it ignoring case |
| ResourceFilter.MatchesOneStar | src/azviz/visualization/graph_builder.py:251-261 | a one-star pattern matches exactly the types with that prefix and suffix, ignoring case |
| ResourceFilter.MatchesTwoStars | src/azviz/visualization/graph_builder.py:251-263 | a two-star pattern matches no type without '*' |
| ResourceFilter.SubnetsWildcardMatchesNothing | src/azviz/visualization/graph_builder.py:251-263 | `*subnets*` does not exclude the subnet type |
| ResourceFilter.ExcludeByPatterns | src/azviz/visualization/graph_builder.py:93-105 | the kept resources are an in-order subsequence of the input holding every copy of each resource whose type matches no exclusion pattern and no copy of the others |
| ResourceFilter.ComputeAndRelatedDisjoint | src/azviz/visualization/graph_builder.py:121-144 | no resource is both a compute and a related-infrastructure resource |
| ResourceFilter.Collect | src/azviz/visualization/graph_builder.py:165-232 | a collection step appends only candidates it keeps, never loses a collected one, and records every kept candidate's name, keeping names unique |
| ResourceFilter.CollectOne | src/azviz/visualization/graph_builder.py:165-175 | adding a resource whose name is not yet collected keeps the names unique |
| ResourceFilter.Named | src/azviz/visualization/graph_builder.py:188-197 | exactly the resources carrying the given name |
| ResourceFilter.DependencyTargets | src/azviz/visualization/graph_builder.py:188-197 | a resource is a target exactly when it is in the list and some owner names it among its dependencies |
| ResourceFilter.NameMatches | src/azviz/visualization/graph_builder.py:201-221 | a resource is matched exactly when it is in the list and its name looks related to some virtual machine's name |
| ResourceFilter.CollectRelated | src/azviz/visualization/graph_builder.py:165-232 | collecting related candidates keeps every collected resource related and from the input |
| ResourceFilter.ComputeRelated | src/azviz/visualization/graph_builder.py:160-232 | the related resources come from the input with unique names; each one passes one of the five steps (same group as compute or the Internet node, dependency of compute, depends on compute, named like a VM, subnet of a collected NIC), and every resource passing a step has its name collected |
| ResourceFilter.Stage4Sound | src/azviz/visualization/graph_builder.py:163-221 | steps 1 to 4 collect only input resources that pass one of their four tests |
| ResourceFilter.Stage5CompleteSteps1To4 | src/azviz/visualization/graph_builder.py:163-221 | a resource passing any of steps 1 to 4 has its name among the collected ones |
| ResourceFilter.Step5Sound | src/azviz/visualization/graph_builder.py:223-232 | step 5 adds only subnets that a collected network interface depends on |
| ResourceFilter.Step5Complete | src/azviz/visualization/graph_builder.py:223-232 | every subnet a collected network interface depends on has its name collected |
| ResourceFilter.FilterComputeOnly | src/azviz/visualization/graph_builder.py:109-238 | empty exactly when there is no compute resource; otherwise the compute resources in order followed by the related ones, all from the input |
| ResourceFilter.ComputeOnlyTail | src/azviz/visualization/graph_builder.py:235 | every resource after the compute prefix is related infrastructure, not compute |
| ResourceFilter.FilterResources | src/azviz/visualization/graph_builder.py:77-107 | the result is the (compute-only filtered) input minus the excluded types, in order, with every copy of a kept resource preserved |
| NodeSynthesis.GroupResources | src/azviz/visualization/graph_builder.py:265-285 | the groups partition the resources by key, in first-seen order, with no empty group |
| NodeSynthesis.BuildNodeLabel | src/azviz/visualization/graph_builder.py:379-460 | a minimal label is the name or its last segment, and a standard label ends with ')' |
| NodeSynthesis.GenericLabel | src/azviz/visualization/graph_builder.py:452-460 | for ordinary types the minimal label is the name and the standard one adds the category in parentheses |
| NodeSynthesis.DetailedExtendsStandard | src/azviz/visualization/graph_builder.py:452-460 | the detailed label starts with the standard label |
| NodeSynthesis.DetailedCountsSeveral | src/azviz/visualization/graph_builder.py:457-460 | for ordinary types the detailed label adds a resource count only when there are several resources |
| NodeSynthesis.DetailedCountSuffix | src/azviz/visualization/graph_builder.py:457-460 | with several resources the detailed label ends with the count of resources |
| NodeSynthesis.SafePropertiesSelect | src/azviz/visualization/graph_builder.py:359-368 | exactly the properties with safe values are kept, in order |
| NodeSynthesis.BaseAttributes | src/azviz/visualization/graph_builder.py:346-352 | the five base attributes in order, with the resource group and the ranking of its type |
| NodeSynthesis.ExtraAttributes | src/azviz/visualization/graph_builder.py:354-368 | a power-state attribute exactly for VMs that report one, holding the reported value; a properties attribute exactly when there are properties, holding the safe ones |
| NodeSynthesis.BaseKeysDistinct | src/azviz/visualization/graph_builder.py:346-368 | base attribute keys never clash with the power-state or properties keys |
| NodeSynthesis.ResourceAttributes | src/azviz/visualization/graph_builder.py:346-368 | resource group and rank are recorded; power state exactly for VMs that report one, with the reported value; properties exactly when there are any, holding the dict of safe properties |
| NodeSynthesis.ResourceNode | src/azviz/visualization/graph_builder.py:331-377 | a resource node carries the resource's id, name, category, type, label and attributes |
| NodeSynthesis.GroupNodeId | src/azviz/visualization/graph_builder.py:318 | a group id is "group_" plus the key with dots and slashes replaced |
| NodeSynthesis.GroupNode | src/azviz/visualization/graph_builder.py:304-329 | a group node is named after the key, takes its category from the first member and records the resource count |
| NodeSynthesis.NodesOfTypeGroups | src/azviz/visualization/graph_builder.py:287-302 | at depth other than 1 the nodes are one resource node per grouped resource, in group order |
| NodeSynthesis.OneNodePerResource | src/azviz/visualization/graph_builder.py:287-302 | at depth other than 1 there is exactly one node per resource and each is that resource's node |
| NodeSynthesis.OneNodePerGroup | src/azviz/visualization/graph_builder.py:293-302 | at depth 1 there is exactly one node per group |
| NodeSynthesis.CategoryNodeCount | src/azviz/visualization/graph_builder.py:265-302 | at depth 1 there is one node per distinct category |
| EdgeBuilder.ExtractResourceNameFromId | src/azviz/visualization/graph_builder.py:1154-1171 | an empty id gives an empty name and an id without '/' is its own name; any other id is either returned unchanged (fewer than nine parts) or reduced to a name without '/' |
| EdgeBuilder.ResourceIdParts | src/azviz/visualization/graph_builder.py:470-478 | a synthesised resource id has at least nine '/'-separated parts |
| EdgeBuilder.ExtractNameFromResourceId | src/azviz/visualization/graph_builder.py:1154-1171 | the name read back from a synthesised resource id is the resource's name |
| EdgeBuilder.IndexStep | src/azviz/visualization/graph_builder.py:470-478 | indexing one more resource adds its id and name keys and keeps the earlier keys |
| EdgeBuilder.IndexResourcesSound | src/azviz/visualization/graph_builder.py:470-478 | every index entry maps a resource's id or name key to that resource, and every resource is indexed under both |
| EdgeBuilder.FindByName | src/azviz/visualization/graph_builder.py:496-503 | the fallback scan finds a resource with the requested name exactly when some entry carries it |
| EdgeBuilder.Resolve | src/azviz/visualization/graph_builder.py:489-509 | a resolved resource comes from the index, and via the fallback carries the name read from the id |
| EdgeBuilder.ResolveSound | src/azviz/visualization/graph_builder.py:489-509 | a resolved resource is one of the resources, matched by id or name key, or by the name in the id |
| EdgeBuilder.ResolveOwnId | src/azviz/visualization/graph_builder.py:470-495 | every resource resolves from its own synthesised id |
| EdgeBuilder.AssociationEdge | src/azviz/visualization/graph_builder.py:485-527 | an association gives an edge exactly when both ends resolve, between their node ids, labelled with the association type |
| EdgeBuilder.AssociationEdges | src/azviz/visualization/graph_builder.py:462-527 | an edge is listed exactly when it is the edge of some listed association whose two ends resolve; at most one per association, each solid blue |
| EdgeBuilder.AssociationEdgesComplete | src/azviz/visualization/graph_builder.py:462-527 | every association whose ends both resolve has its edge in the output |
| EdgeBuilder.NameIndexLastWins | src/azviz/visualization/graph_builder.py:535 | the name index maps a name to the last resource carrying it |
| EdgeBuilder.NameIndexSound | src/azviz/visualization/graph_builder.py:535 | a name is indexed exactly when some resource carries it, and maps to such a resource |
| EdgeBuilder.ListedPairIgnoresKind | src/azviz/visualization/graph_builder.py:556-846 | for a listed source/target type pair, label and style do not depend on dependency kind or description |
| EdgeBuilder.UnlistedPair | src/azviz/visualization/graph_builder.py:847-865 | unlisted pairs fall back to "derived", "derived (description)" or a dashed red "depends on" |
| EdgeBuilder.DependencyEdgeOf | src/azviz/visualization/graph_builder.py:552-877 | a dependency gives an edge exactly when its target name is known, from the owner's id to the target's |
| EdgeBuilder.DependencyEdgesOf | src/azviz/visualization/graph_builder.py:540-877 | an edge is listed exactly when it is the edge of one of the owner's dependencies whose target name is known; all start at the owner |
| EdgeBuilder.DependencyEdges | src/azviz/visualization/graph_builder.py:529-877 | an edge is listed exactly when it is the edge of some dependency of some owner whose target name is known |
| EdgeBuilder.MissingTargetNoEdge | src/azviz/visualization/graph_builder.py:552-553 | a dependency on an unknown name is skipped |
| EdgeBuilder.DependencyEdgeIffNamed | src/azviz/visualization/graph_builder.py:552-553 | a dependency edge exists exactly when some resource has the target name |
| EdgeBuilder.DependencyTargetIsLastNamed | src/azviz/visualization/graph_builder.py:535-553 | the edge points to the last resource carrying the target name |
| EdgeBuilder.ZoneMatch | src/azviz/visualization/graph_builder.py:896-933 | an OpenShift cluster with configured domains matches exactly when the domain loop finds the zone's parent domain; any other resource matches, as derived, exactly by the naming heuristic |
| EdgeBuilder.ScanDomainsFinds | src/azviz/visualization/graph_builder.py:906-914 | the domain loop finds the parent exactly at the first domain containing it after clean misses, and reports no match exactly when every domain is a clean miss |
| EdgeBuilder.DomainNamesMatch | src/azviz/visualization/graph_builder.py:902-914 | an OpenShift cluster listing a domain name that contains the zone's parent domain is matched by configuration, without raising |
| EdgeBuilder.ZoneEdge | src/azviz/visualization/graph_builder.py:887-978 | a zone serves a resource exactly when it is another resource of a served type that matches, from zone to resource |
| EdgeBuilder.ZoneEdgeLabel | src/azviz/visualization/graph_builder.py:947-966 | the label says "(derived)" exactly for derived matches |
| EdgeBuilder.ZoneEdges | src/azviz/visualization/graph_builder.py:887-978 | an edge is listed exactly when it is the zone's edge to some resource it serves; each runs from the zone to another served resource |
| EdgeBuilder.DnsZoneEdges | src/azviz/visualization/graph_builder.py:879-978 | an edge is listed exactly when it is the edge from some zone to some resource that zone serves |
| EdgeBuilder.ZoneNeverServesItself | src/azviz/visualization/graph_builder.py:896-944 | a zone never gets an edge to itself |
| EdgeBuilder.BuilderEdges | src/azviz/visualization/graph_builder.py:48-70 | the builder emits only association, dependency and DNS-service edges |
| DiGraphs.PutDistinct | src/azviz/visualization/graph_builder.py:1075 | storing a key keeps the node map's keys distinct |
| DiGraphs.AddNode | src/azviz/visualization/graph_builder.py:1075-1110 | `add_node` appends a new id or updates the existing node's attributes, leaving other nodes and all edges alone |
| DiGraphs.EnsureNode | src/azviz/visualization/graph_builder.py:1114-1119 | an edge end that is not yet a node is added without attributes; an existing node is untouched |
| DiGraphs.AddEndNodes | src/azviz/visualization/graph_builder.py:1114-1119 | adding an edge makes exactly its two ends nodes, keeping existing nodes' data |
| DiGraphs.AddEdge | src/azviz/visualization/graph_builder.py:1114-1119 | `add_edge` creates or updates the one (source, target) edge, leaving the others alone |
| DiGraphs.AddEdgeWellFormed | src/azviz/visualization/graph_builder.py:1114-1119 | adding an edge keeps the graph well formed |
| DiGraphs.OutEdgesMembers | src/azviz/visualization/dot_generator.py:1113-1128 | a node's out-edges are exactly the edges from it |
| DiGraphs.EdgesFromMembers | src/azviz/visualization/dot_generator.py:1113-1128 | the edges listed from a node sequence are exactly the edges starting in it |
| DiGraphs.EdgeListMembers | src/azviz/visualization/dot_generator.py:1113-1128 | `graph.edges()` of a well-formed graph lists exactly its edges |
| GraphAssembly.FindNode | src/azviz/visualization/graph_builder.py:1012-1015 | a node with the id is found exactly when one exists |
| GraphAssembly.PreferredEdge | src/azviz/visualization/graph_builder.py:1022-1039 | a preferred edge is one of the pair and joins a NIC to a VM or a public IP; none is chosen only when neither does |
| GraphAssembly.ResolvePair | src/azviz/visualization/graph_builder.py:1003-1049 | only pairs can lose an edge, and then one edge joining a NIC to a VM or public IP remains |
| GraphAssembly.ResolveGroupsSubMultiset | src/azviz/visualization/graph_builder.py:1003-1049 | resolving groups only removes edges |
| GraphAssembly.ResolveGroupsMembers | src/azviz/visualization/graph_builder.py:1003-1049 | the kept edges are exactly those kept within their own group |
| GraphAssembly.FilterRedundantEdges | src/azviz/visualization/graph_builder.py:980-1051 | the redundant-edge filter keeps a sub-multiset of its input edges |
| GraphAssembly.FilterRedundantDropsOnly | src/azviz/visualization/graph_builder.py:980-1051 | the redundant-edge filter only removes edges |
| GraphAssembly.GroupOfEdge | src/azviz/visualization/graph_builder.py:994-1000 | every edge lands in the group of its unordered endpoint pair |
| GraphAssembly.UnpairedEdgeKept | src/azviz/visualization/graph_builder.py:1003-1049 | an edge whose endpoint pair is not shared by exactly two edges is kept |
| GraphAssembly.DroppedEdgeHasKeptPartner | src/azviz/visualization/graph_builder.py:1007-1046 | a dropped edge had exactly one partner on the same pair, which is kept and joins a NIC to a VM or public IP |
| GraphAssembly.PrefixKeys | src/azviz/visualization/graph_builder.py:1107-1110 | each property is stored under its key prefixed with "prop_", in order |
| GraphAssembly.PrefixKeysMembers | src/azviz/visualization/graph_builder.py:1107-1110 | the prefixed entries are exactly the properties with "prop_" prepended |
| GraphAssembly.NodeFieldsStrings | src/azviz/visualization/graph_builder.py:1075-1081 | the node's own fields are all strings and never named "properties" |
| GraphAssembly.NodeDataFlat | src/azviz/visualization/graph_builder.py:1070-1110 | the data stored on a graph node has no "properties" key and no nested list or dict |
| GraphAssembly.NodeDataLabel | src/azviz/visualization/graph_builder.py:1075-1081 | the stored label is the node's label unless an attribute overrides it |
| GraphAssembly.EssentialDataExact | src/azviz/visualization/graph_builder.py:1084-1110 | exactly the scalar essential properties are copied, prefixed |
| GraphAssembly.EssentialDataNeedsDict | src/azviz/visualization/graph_builder.py:1084-1088 | without a properties dict nothing is copied |
| GraphAssembly.AddGraphNodesShape | src/azviz/visualization/graph_builder.py:1067-1110 | adding the nodes keeps the graph well formed, adds exactly their ids and no edge |
| GraphAssembly.AddGraphEdgesShape | src/azviz/visualization/graph_builder.py:1113-1119 | adding the edges keeps the graph well formed, adds exactly their ends as nodes and their pairs as edges |
| GraphAssembly.PopulateShape | src/azviz/visualization/graph_builder.py:1065-1119 | the populated graph is well formed, its nodes are the built nodes plus the surviving edges' ends, and its edges the surviving pairs |
| GraphAssembly.PresentIds | src/azviz/visualization/graph_builder.py:1138-1143 | cluster members are nodes of the graph |
| GraphAssembly.PresentIdsMembers | src/azviz/visualization/graph_builder.py:1138-1143 | the members are exactly the group's resources whose node id is in the graph |
| GraphAssembly.ClusterKeyInjective | src/azviz/visualization/graph_builder.py:1146 | different resource groups get different cluster keys |
| GraphAssembly.StoreClustersLookup | src/azviz/visualization/graph_builder.py:1135-1152 | the cluster stored for a group with present members lists them; otherwise the earlier entry stays |
| GraphAssembly.StoreClustersOtherKeys | src/azviz/visualization/graph_builder.py:1146 | keys not starting with "cluster_" are untouched |
| GraphAssembly.StoreClustersMembers | src/azviz/visualization/graph_builder.py:1136-1152 | a newly stored cluster is non-empty and lists graph nodes only |
| GraphAssembly.SubgraphOfGroup | src/azviz/visualization/graph_builder.py:1121-1152 | a group's cluster lists its resources present in the graph, and is only stored when there are some |
| GraphAssembly.SubgraphsKeepOtherKeys | src/azviz/visualization/graph_builder.py:1121-1152 | building clusters leaves non-cluster keys unchanged |
| GraphAssembly.SubgraphMembersInGraph | src/azviz/visualization/graph_builder.py:1121-1152 | every cluster is either an earlier one or a non-empty list of graph nodes |
| GraphAssembly.AssembleShape | src/azviz/visualization/graph_builder.py:34-75 | the built graph is well formed with exactly the built nodes plus the kept edges' ends, and exactly the kept edges |
| GraphAssembly.BuildGraph | src/azviz/visualization/graph_builder.py:34-75 | `build_graph` yields a well-formed graph whose nodes are the nodes built from the filtered resources plus the kept edges' ends, and whose edges are exactly the kept edges |
| DotFormat.EscapeQuotes | src/azviz/visualization/dot_generator.py:1082 | escaping never shortens, never starts with a quote and leaves quote-free text alone |
| DotFormat.EscapeRoundTrip | src/azviz/visualization/dot_generator.py:1082 | unescaping an escaped text gives it back |
| DotFormat.EscapedQuotesGuarded | src/azviz/visualization/dot_generator.py:1082 | every quote in escaped text is preceded by a backslash |
| DotFormat.NodePassThrough | src/azviz/visualization/dot_generator.py:1092-1111 | at most one pass-through attribute per data entry |
| DotFormat.NodePassThroughMembers | src/azviz/visualization/dot_generator.py:1092-1111 | the pass-through attributes are exactly the data entries not handled elsewhere, quoted |
| DotFormat.NodeAttributes | src/azviz/visualization/dot_generator.py:686-1111 | the node attribute list ends with the pass-through attributes |
| DotFormat.FormatNode | src/azviz/visualization/dot_generator.py:686-1111 | a node line is `"id" [ ... ];` |
| DotFormat.FallbackLabel | src/azviz/visualization/dot_generator.py:1080-1090 | without an icon the label is the escaped name, or the id when there is none, and the fill is the theme colour |
| DotFormat.EdgeAttributesShape | src/azviz/visualization/dot_generator.py:1130-1171 | the label comes first when non-empty, then dashed red for dependencies and solid for the rest |
| DotFormat.FormatEdge | src/azviz/visualization/dot_generator.py:1130-1171 | an edge line is `"s" -> "t" [ ... ];` |
| DotFormat.EdgeLines | src/azviz/visualization/dot_generator.py:1113-1128 | one line per edge, in edge order |
| DotFormat.EdgeLinesCoverGraph | src/azviz/visualization/dot_generator.py:1113-1128 | the emitted edge lines are exactly the lines of the graph's edges |
| DotFormat.LegendBlocks | src/azviz/visualization/dot_generator.py:1173-1228 | each legend block appears exactly when its edge type occurs |
| DotFormat.LegendEmptyIff | src/azviz/visualization/dot_generator.py:1173-1228 | the legend is empty exactly when there is no association or dependency edge |
| DotFormat.DnsOnlyGraphHasNoLegend | src/azviz/visualization/dot_generator.py:1173-1228 | a graph with only DNS edges gets no legend |
| DotFormat.PowerStateColor | src/azviz/visualization/dot_generator.py:754 | running is green, stopped or deallocated red, anything else orange |
| DotFormat.TruncateNote | src/azviz/visualization/dot_generator.py:921-922 | a note over 60 characters becomes its first 57 plus "..."; shorter notes are unchanged |
| DotClusters.QuotedAll | src/azviz/visualization/dot_generator.py:530 | each id is quoted, in order |
| DotClusters.Priority | src/azviz/visualization/dot_generator.py:461-503 | priority is 1..8 for listed types and 99 exactly for unlisted ones |
| DotClusters.PresentMembers | src/azviz/visualization/dot_generator.py:499-507 | only cluster members that are graph nodes are drawn, with their node data |
| DotClusters.AtPriorityMembers | src/azviz/visualization/dot_generator.py:497-507 | a priority bucket holds exactly the members of that priority |
| DotClusters.BucketsHomogeneous | src/azviz/visualization/dot_generator.py:497-519 | every emitted bucket is non-empty and holds only members of its level |
| DotClusters.BucketsFlatten | src/azviz/visualization/dot_generator.py:497-519 | the buckets together hold exactly the members whose priority is a listed level |
| DotClusters.BucketsAscending | src/azviz/visualization/dot_generator.py:510 | buckets come in ascending priority |
| DotClusters.LevelsAscending | src/azviz/visualization/dot_generator.py:461-495 | the priority levels are in ascending order |
| DotClusters.LevelsComplete | src/azviz/visualization/dot_generator.py:461-503 | every possible priority is one of the levels |
| DotClusters.BucketsCoverMembers | src/azviz/visualization/dot_generator.py:497-519 | every present member is drawn in exactly the ascending buckets |
| DotClusters.RankIds | src/azviz/visualization/dot_generator.py:521-531 | the `rank=same` group lists exactly the non-storage members |
| DotClusters.BucketHeads | src/azviz/visualization/dot_generator.py:533-539 | the representatives are the first member of each bucket |
| DotClusters.OrderingPairs | src/azviz/visualization/dot_generator.py:545-551 | k representatives give the k-1 links between neighbours |
| DotClusters.ExtendedNameMatches | src/azviz/visualization/dot_generator.py:576-589 | storage named after a VM with a suffix is aligned with it |
| DotClusters.VmMembers | src/azviz/visualization/dot_generator.py:562-567 | the VMs are exactly the VM-typed members |
| DotClusters.StorageMembers | src/azviz/visualization/dot_generator.py:568-569 | the storage members are exactly the disk and storage-account members |
| DotClusters.AlignedWith | src/azviz/visualization/dot_generator.py:572-594 | a VM is aligned only with storage whose name matches it |
| DotClusters.AlignmentPairs | src/azviz/visualization/dot_generator.py:572-595 | every alignment edge goes from a VM to a storage member |
| DotClusters.AlignmentEdgesTyped | src/azviz/visualization/dot_generator.py:553-595 | alignment edges link a VM member of the cluster to a storage member of it |
| DotClusters.EdgeLinesOf | src/azviz/visualization/dot_generator.py:545-634 | one invisible edge line per pair, in order |
| DotClusters.TitleAnchor | src/azviz/visualization/dot_generator.py:609-620 | a title is anchored exactly when some cluster member is a graph node |
| DotClusters.TitlePositions | src/azviz/visualization/dot_generator.py:599-634 | at most one title-positioning edge per cluster |
| DotClusters.TitlePositionsExact | src/azviz/visualization/dot_generator.py:599-634 | exactly the anchored clusters get a title-positioning edge |
| DotClusters.FormattedIdOfBuiltNode | src/azviz/visualization/dot_generator.py:614-620 | for a node built from a resource the recomputed id is the node's id |
| DotClusters.FormattedIdOfBareNode | src/azviz/visualization/dot_generator.py:614-620 | a node without data recomputes to the id "__" |
| DotClusters.TitleRankOnlyForSeveral | src/azviz/visualization/dot_generator.py:629-630 | titles share a rank line only when there are at least two |
| DotClusters.ClusterSectionEmptyIff | src/azviz/visualization/dot_generator.py:395-638 | the section is empty exactly when there are no clusters, and otherwise opens the main container |
| DotDocument.IndentLines | src/azviz/visualization/dot_generator.py:153-176 | each line is indented on its own, in order |
| DotDocument.IndentContentLines | src/azviz/visualization/dot_generator.py:153-176 | blank content is returned unchanged; otherwise the lines of the result are the lines of the input, each indented |
| DotDocument.GraphAttributesIgnoreDirection | src/azviz/visualization/dot_generator.py:189-214 | the graph attributes do not depend on the configured direction and always say `rankdir="LR"` |
| DotDocument.TitleTextName | src/azviz/visualization/dot_generator.py:259-264 | a given name opens the title text, and alone forms it |
| DotDocument.TitleTextId | src/azviz/visualization/dot_generator.py:259-264 | a given id ends the title text, and alone forms it |
| DotDocument.SubscriptionTitleBlankIff | src/azviz/visualization/dot_generator.py:241-291 | the title block is blank exactly when neither name nor id is given |
| DotDocument.TitleLabelRoundTrip | src/azviz/visualization/dot_generator.py:259-275 | the label line unescapes to the title text |
| DotDocument.ClusterMemberSet | src/azviz/visualization/dot_generator.py:654-657 | the clustered ids are exactly the members of some cluster |
| DotDocument.Unclustered | src/azviz/visualization/dot_generator.py:663-664 | the standalone nodes are exactly the graph nodes in no cluster |
| DotDocument.InternetSplit | src/azviz/visualization/dot_generator.py:663-671 | each half holds exactly the Internet (or non-Internet) standalone nodes |
| DotDocument.InternetSplitCount | src/azviz/visualization/dot_generator.py:663-671 | the two halves together hold every standalone node once |
| DotDocument.NodeDefs | src/azviz/visualization/dot_generator.py:663-671 | one indented node line per standalone node, in order |
| DotDocument.StandaloneDefinesNode | src/azviz/visualization/dot_generator.py:640-685 | every graph node in no cluster is defined among the standalone lines |
| DotDocument.StandaloneMentionsNode | src/azviz/visualization/dot_generator.py:640-685 | the standalone text mentions every unclustered node |
| DotDocument.AnchorFallsBackToInternet | src/azviz/visualization/dot_generator.py:112-113 | with no clusters the Internet gateway anchors the title |
| DotDocument.AnchorPrefersFirstTitle | src/azviz/visualization/dot_generator.py:99-103 | with clusters the first cluster's title anchors the subscription title |
| DotDocument.FramedStrip | src/azviz/visualization/dot_generator.py:148 | the final strip leaves the framed document untouched |
| DotDocument.DocumentFraming | src/azviz/visualization/dot_generator.py:125-148 | the document opens with `digraph AzureTopology {` and closes with `}` |
| DotDocument.PositioningNeedsSubscription | src/azviz/visualization/dot_generator.py:94-122 | the title is positioned exactly when a subscription name or id is given |
| AzureParsing.ExtractCategory | src/azviz/azure/client.py:285-301 | a type without '/' is "Unknown" |
| AzureParsing.CategoryOfProvider | src/azviz/azure/client.py:294-301 | a provider-qualified type is categorised by its provider, without "Microsoft.", title-cased |
| AzureParsing.MicrosoftProvider | src/azviz/azure/client.py:297-300 | the "Microsoft." prefix is dropped before title-casing |
| AzureParsing.TitleKeepsCapitalised | src/azviz/azure/client.py:300 | a capitalised word is already title case |
| AzureParsing.BucketEntries | src/azviz/azure/client.py:210-237 | a bucket holds exactly the records of the resources whose type falls into it, in order |
| AzureParsing.BucketsPartition | src/azviz/azure/client.py:228-237 | each topology resource lands in at most one bucket, and buckets plus misses count the response |
| AzureParsing.LinkAssociations | src/azviz/azure/client.py:239-253 | one association record per link, from the resource's id |
| AzureParsing.FlattenAppend | src/azviz/azure/client.py:239-253 | the association records keep the response order |
| AzureParsing.FlattenMembers | src/azviz/azure/client.py:239-253 | the records are exactly one per link of a listed resource |
| AzureParsing.ParseTopology | src/azviz/azure/client.py:193-255 | an absent or empty response gives the empty topology; otherwise each of the five buckets holds exactly its records in response order, the associations are the flattened links of the listed resources, and subnets are never filled |
| AzureParsing.SubnetsGoWithNetworks | src/azviz/azure/client.py:228-229 | subnet types are filed with the virtual networks |
| AzureParsing.PowerState | src/azviz/azure/client.py:274-278 | the first "PowerState/" status gives the state, as its last segment; none means no state |
| AzureParsing.PowerStateReadsSuffix | src/azviz/azure/client.py:276-278 | "PowerState/running" reads as "running" |
| DiagramExport.NormalizeResourceGroups | src/azviz/core/azviz.py:83-94 | one group becomes a list of one; a non-empty list is kept; otherwise all available groups, or an error when there are none |
| DiagramExport.NormalizedNonEmpty | src/azviz/core/azviz.py:83-94 | a normalised list is never empty |
| DiagramExport.AppendTopologyMonoid | src/azviz/core/azviz.py:131-138 | combining topologies is associative with the empty topology as unit |
| DiagramExport.CombinedTopologyAppend | src/azviz/core/azviz.py:118-138 | the combined topology of two scan lists is the combination of theirs |
| DiagramExport.EmptyGroupContributesNothing | src/azviz/core/azviz.py:126-138 | a group without resources adds neither resources nor topology |
| DiagramExport.CombinedResourcesAppend | src/azviz/core/azviz.py:118-123 | resources are combined in group order |
| DiagramExport.CombinedResourcesEmpty | src/azviz/core/azviz.py:118-141 | the combined list is empty exactly when every group is empty |
| DiagramExport.ScanAll | src/azviz/core/azviz.py:118-123 | each group is scanned once, in order |
| DiagramExport.LastIndexOf | src/azviz/core/azviz.py:177 | the index of the last occurrence, or none when absent |
| DiagramExport.LastIndexOfAppend | src/azviz/core/azviz.py:177 | appending text without the character keeps its last index |
| DiagramExport.Extension | src/azviz/core/azviz.py:170-176 | each format's extension is a lower-case dot plus dot-free text |
| DiagramExport.PathNameAppend | src/azviz/core/azviz.py:181 | appending a slash-free extension extends the file name |
| DiagramExport.NameSuffixAppend | src/azviz/core/azviz.py:181 | a name with an appended extension has that extension as suffix |
| DiagramExport.SuffixOfAppended | src/azviz/core/azviz.py:177-181 | after `with_suffix` the path's suffix is the extension |
| DiagramExport.ResolvedHasExtension | src/azviz/core/azviz.py:169-192 | a resolved file has the format's extension and resolves to itself; the refusals are exactly a wrong extension or an unnamed path |
| DiagramExport.MatchingSuffixKept | src/azviz/core/azviz.py:190-192 | a file already carrying the extension is kept as given |
| DiagramExport.StrRepr | src/azviz/core/azviz.py:141 | `repr` of a string is quoted on both ends and its body reads back to the string |
| DiagramExport.UnescapeEscapeRepr | src/azviz/core/azviz.py:141 | reading back `repr`'s escaping gives the original text, for either quote |
| DiagramExport.StrReprPlain | src/azviz/core/azviz.py:141 | a string without quotes, backslashes or control characters is shown between single quotes |
| DiagramExport.NoResourcesMessageOne | src/azviz/core/azviz.py:140-141 | with one plain group the refusal reads `No resources found in resource groups: ['<group>']` |
| DiagramExport.PlanExport | src/azviz/core/azviz.py:83-192 | the export fails on normalisation errors; on success the plan holds the scans' combined resources and topology, the normalised groups, the caller's settings, and the file the extension rule resolves |
| DiagramExport.PlanExportErrors | src/azviz/core/azviz.py:140-192 | all groups empty is an error naming the group list as Python prints it, raised before the file is looked at; otherwise the export fails exactly when the file rule refuses |
| DiagramExport.ExportDiagram | src/azviz/core/azviz.py:83-192 | the export succeeds exactly when the plan does, with its file and configuration, and its graph is `build_graph` of the plan's resources and topology on an empty cluster map |
| DiagramExport.ExportedDot | src/azviz/core/azviz.py:153-159 | the exported DOT text is one framed digraph |
| Icons.Png | src/azviz/icons/icon_manager.py:27-99 | every icon file name ends in ".png" |
| Icons.WithPng | src/azviz/icons/icon_manager.py:27-99 | each built-in type maps to its stem plus ".png", in order |
| Icons.NewIconManager | src/azviz/icons/icon_manager.py:13-24 | a non-empty directory is used, otherwise the package's; the built-in mappings are loaded |
| Icons.IconPath | src/azviz/icons/icon_manager.py:103-128 | a path is returned exactly when the lower-cased type is mapped to a non-empty file that exists in the directory |
| Icons.IconPathIgnoresCase | src/azviz/icons/icon_manager.py:103-128 | lookup ignores the case of the type |
| Icons.AddCustomMapping | src/azviz/icons/icon_manager.py:138-145 | the mapping is stored under the lower-cased type and every other mapping is kept |
| Icons.CustomMappingFound | src/azviz/icons/icon_manager.py:103-145 | a custom mapping is found under any spelling of its type when the file exists |
| Icons.IconPathIsPng | src/azviz/icons/icon_manager.py:27-128 | with PNG mappings only, a found icon path ends in ".png" |
| BatchTool.ReplaceUnsafe | tools/generate_all_subscription_diagrams.py:18 | every character outside word characters and '-' becomes '_' |
| BatchTool.CollapseUnderscores | tools/generate_all_subscription_diagrams.py:20 | collapsing leaves no doubled '_' and adds no new character |
| BatchTool.Sanitize | tools/generate_all_subscription_diagrams.py:15-23 | a sanitised name has only safe characters, no doubled '_' and no '_' at either end |
| BatchTool.CollapseFixed | tools/generate_all_subscription_diagrams.py:20 | text without doubled '_' is unchanged by collapsing |
| BatchTool.SanitizeIdempotent | tools/generate_all_subscription_diagrams.py:15-23 | sanitising is idempotent and fixes every sanitised name |
| BatchTool.LettersConcat | tools/generate_all_subscription_diagrams.py:15-23 | the non-'_' characters of a concatenation are those of the parts |
| BatchTool.LettersOfReplaced | tools/generate_all_subscription_diagrams.py:18 | replacement keeps exactly the safe non-'_' characters |
| BatchTool.LettersOfCollapsed | tools/generate_all_subscription_diagrams.py:20 | collapsing keeps every non-'_' character |
| BatchTool.LettersOfStripLeft | tools/generate_all_subscription_diagrams.py:22 | stripping leading '_' keeps every other character |
| BatchTool.LettersOfStripRight | tools/generate_all_subscription_diagrams.py:22 | stripping trailing '_' keeps every other character |
| BatchTool.SanitizeKeepsContent | tools/generate_all_subscription_diagrams.py:15-23 | the sanitised name spells the safe non-'_' characters of the input, in order |
| BatchTool.DataLines | tools/generate_all_subscription_diagrams.py:62-73 | the rows are exactly the lines holding '│' and none of the border glyphs |
| BatchTool.DataLinesAppend | tools/generate_all_subscription_diagrams.py:62-73 | rows are counted line by line |
| BatchTool.CheckResourceGroups | tools/generate_all_subscription_diagrams.py:44-80 | a failed listing counts nothing and reports trimmed stderr; a successful one counts exactly the table rows of the trimmed output (lines with `│` and no header or border glyph) and reports groups exactly when there is one |
| BatchTool.RowsCounted | tools/generate_all_subscription_diagrams.py:62-74 | each table row adds one to the count and border lines add nothing |
| BatchTool.OutputFile | tools/generate_all_subscription_diagrams.py:94-96 | the file is the directory joined with the sanitised subscription name and the format's extension, so its stem has only safe characters |
| BatchTool.OutputFileSpellsName | tools/generate_all_subscription_diagrams.py:94-96 | the output file's stem is a safe name spelling the subscription name's safe characters in order |
| BatchTool.ExportArguments | tools/generate_all_subscription_diagrams.py:101-118 | the command line names the subscription, format, output file and theme, fixes verbosity 2, and ends with `--legend` only when requested |
| BatchTool.LegendFlagIffRequested | tools/generate_all_subscription_diagrams.py:101-118 | the command line contains `--legend` exactly when a legend was requested |
| BatchTool.DiagramOutcome | tools/generate_all_subscription_diagrams.py:120-125 | success exactly on a zero exit status, with the output file; otherwise the trimmed error output |

### Where the entry points are stated

Several functions model an entry point of the code directly and leave their contract to lemmas about them. Each one is listed here with the rows that state its contract.

- `GraphAssembly.Assemble`, `GraphAssembly.Populate`: `GraphAssembly.AssembleShape`, `GraphAssembly.PopulateShape`, `GraphAssembly.BuildGraph`.
- `GraphAssembly.CreateSubgraphs`: `GraphAssembly.SubgraphOfGroup`, `GraphAssembly.SubgraphsKeepOtherKeys`, `GraphAssembly.SubgraphMembersInGraph`.
- `DotDocument.GenerateDot`: `DotDocument.DocumentFraming`, `DotDocument.FramedStrip`, `DiagramExport.ExportedDot`.
- `DotDocument.SubscriptionTitle`: `DotDocument.SubscriptionTitleBlankIff`, `DotDocument.TitleTextName`, `DotDocument.TitleTextId`, `DotDocument.TitleLabelRoundTrip`.
- `DotDocument.SubscriptionAnchor`: `DotDocument.AnchorFallsBackToInternet`, `DotDocument.AnchorPrefersFirstTitle`.
- `DotDocument.SubscriptionPositioning`: `DotDocument.PositioningNeedsSubscription`.
- `DotDocument.StandaloneLines`: `DotDocument.StandaloneDefinesNode`, `DotDocument.StandaloneMentionsNode`, `DotDocument.InternetSplit`, `DotDocument.InternetSplitCount`.
- `DotClusters.ClusterSection`: `DotClusters.ClusterSectionEmptyIff`, together with the bucket, alignment and title rows of `DotClusters`.
- `DotFormat.EdgeAttributes`: `DotFormat.EdgeAttributesShape`.
- `DotFormat.Legend`: `DotFormat.LegendBlocks`, `DotFormat.LegendEmptyIff`, `DotFormat.DnsOnlyGraphHasNoLegend`.
- `EdgeBuilder.Classify`, `EdgeBuilder.FixedRule`: `EdgeBuilder.ListedPairIgnoresKind`, `EdgeBuilder.UnlistedPair`.
- `EdgeBuilder.IndexResources`: `EdgeBuilder.IndexStep`, `EdgeBuilder.IndexResourcesSound`.
- `EdgeBuilder.NameIndex`: `EdgeBuilder.NameIndexLastWins`, `EdgeBuilder.NameIndexSound`.
- `ResourceFilter.MatchesPattern`: `ResourceFilter.StarPatternSplitsInTwo`, `ResourceFilter.MatchesWithoutStar`, `ResourceFilter.MatchesOneStar`, `ResourceFilter.MatchesTwoStars`.
- `AzureParsing.BucketOf`: `AzureParsing.BucketEntries`, `AzureParsing.BucketsPartition`, `AzureParsing.SubnetsGoWithNetworks`.
- `AzureParsing.FlattenAssociations`: `AzureParsing.FlattenAppend`, `AzureParsing.FlattenMembers`.
- `DiagramExport.ResolveOutputFile`: `DiagramExport.ResolvedHasExtension`, `DiagramExport.MatchingSuffixKept`.
- `DiagramExport.CombinedResources`, `DiagramExport.CombinedTopology`: `DiagramExport.CombinedResourcesAppend`, `DiagramExport.CombinedResourcesEmpty`, `DiagramExport.CombinedTopologyAppend`, `DiagramExport.EmptyGroupContributesNothing`.

## Left out

- Talking to Azure is left out: authentication, resource listing, Network Watcher discovery and subscription lookup. Their answers are parameters: the per-group scan and the list of available groups.
- The call to `_discover_dns_zone_relationships` (src/azviz/core/azviz.py:146) is modelled as leaving the resources unchanged: `DiagramExport.ExportDiagram` builds the graph from the per-group scans as combined. No such method exists in src/azviz/azure/client.py, so there is no behaviour to model.
- Rendering with Graphviz (renderer.py), saving the DOT file and the command-line interface (cli.py) are not modelled.
- Logging is not modelled.
- The HTML-table node labels built from icon files are not modelled. `_format_node` receives them as a parameter.
- `_generate_subgraphs` (dot_generator.py:293-393) is never called by `generate_dot`, so it is not modelled.
- Float property values are not modelled. Only strings, integers, booleans, None, lists and dicts are.
- Topology attributes that exist but are `None` are not modelled; an attribute is either absent or a string.
- The `openshift_cluster_ips` branch of the DNS-zone rule (graph_builder.py:917-921) only logs, so it is not modelled.
- `DotDocument.SubscriptionAnchor` looks at structure. With clusters, the anchor is the first cluster's title id when that cluster's cleaned name is non-empty and quote-free, and there is no anchor otherwise. With no clusters, the anchor is the Internet gateway when the standalone section mentions it, and there is none otherwise. The regular expressions at dot_generator.py:99-109 scan the cluster text instead. They may pick a later cluster's title or a resource node id, and when nothing in the cluster text matches they fall back to the Internet gateway even with clusters present (dot_generator.py:112-113). In each of these cases the model has no anchor. The code imports `re` only inside the title branch (dot_generator.py:99-100), so cluster text without any `title_` would make the resource-node scan fail. Every modelled cluster section holds a title, so that path is not modelled.
- Unicode word characters, `str.title`, `str.isspace`, `str.isalnum` and `str.lower` are ASCII approximations.
- `get_available_icons` is not modelled because icon managers are immutable values, so the copy it returns is the mapping itself.
- Path handling reduces to joining a directory and a name with '/'. `Path` normalisation is not modelled.
- The batch tool's `subprocess` calls and exceptions are not modelled, nor its listing of subscriptions and its summary loop. The finished command is a parameter.
- `DiagramExport.ExportDiagram` stops at the built graph and the resolved file. Rendering and the optional DOT file are left out. The code checks the output extension only after saving that DOT file (src/azviz/core/azviz.py:162-192), so with `save_dot` a refused export still leaves a `.dot` file behind. The model resolves the file before building the graph; with no file writes modelled, the order makes no difference.
- `EdgeBuilder.ZoneMatch`: where the code's domain check raises a TypeError (`EdgeBuilder.DomainCheckRaises`), the model reports no match instead of aborting `build_graph`. This happens when `openshift_dns_domains` is None, a number or a boolean, or when a number, boolean or None is tested before a matching domain. No code in the repository sets that property.
- `DiagramExport.StrRepr`: `repr`'s `\x`, `\u` and `\U` escapes of other non-printable characters are not modelled; those characters are written as they are.
- `DiagramExport.ResolveOutputFile`: a path ending in '/' is treated as having no name, so it is refused. Python's `Path` drops the trailing slash and uses the last component. The refusal message shows the path as given, or '.' for an empty path, where Python shows the normalised path.
- `NodeSynthesis.BuildNodeLabel`: the texts of the special types (DNS zones, VNet links, gateways and so on) are not restated. `NodeSynthesis.GenericLabel` and `NodeSynthesis.DetailedCountsSeveral` state the generic case.
- `AzureParsing.ExtractCategory`: the title-casing is the ASCII approximation of `str.title`.
