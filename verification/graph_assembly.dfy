/**
 * The last steps of the graph builder: dropping the redundant direction of
 * NIC–VM and NIC–public-IP edge pairs, filling the directed graph, and
 * collecting one cluster per resource group.
 */
module GraphAssembly {
  import opened Wrappers
  import opened Text
  import opened OMaps
  import opened Seqs
  import opened Models
  import opened NodeIds
  import opened ResourceFilter
  import opened NodeSynthesis
  import opened EdgeBuilder
  import opened DiGraphs

  // -------------------------------------------------- redundant edge pairs

  /** The unordered pair of an edge's ends: the sorted tuple the code groups by. */
  function PairKey(e: GraphEdge): set<string> {
    {e.source, e.target}
  }

  function PairKeyFn(): GraphEdge -> set<string> {
    e => PairKey(e)
  }

  /** `next((node for node in nodes if node.id == id), None)`. */
  function FindNode(nodes: seq<GraphNode>, id: string): (n: Option<GraphNode>)
    ensures n.Some? ==> n.value in nodes && n.value.id == id
    ensures n.None? <==> forall x :: x in nodes ==> x.id != id
  {
    if nodes == [] then None
    else if nodes[0].id == id then Some(nodes[0])
    else
      assert forall x :: x in nodes <==> x == nodes[0] || x in nodes[1..];
      FindNode(nodes[1..], id)
  }

  /** The type test, case-insensitive; the wanted type is given in lower case. */
  predicate IsResourceType(n: GraphNode, loweredType: string) {
    Lower(n.resourceType) == loweredType
  }

  const NicType: string := "microsoft.network/networkinterfaces"
  const VmType: string := "microsoft.compute/virtualmachines"
  const PublicIpType: string := "microsoft.network/publicipaddresses"

  /** Both ends of the edge are known nodes of the two given types. */
  predicate Joins(nodes: seq<GraphNode>, e: GraphEdge, sourceType: string, targetType: string) {
    var s := FindNode(nodes, e.source);
    var t := FindNode(nodes, e.target);
    s.Some? && t.Some? && IsResourceType(s.value, sourceType) && IsResourceType(t.value, targetType)
  }

  predicate EndsKnown(nodes: seq<GraphNode>, e: GraphEdge) {
    FindNode(nodes, e.source).Some? && FindNode(nodes, e.target).Some?
  }

  /** The direction to keep of a two-edge pair: NIC to VM first, then NIC to public IP. */
  function PreferredEdge(nodes: seq<GraphNode>, e1: GraphEdge, e2: GraphEdge): (k: Option<GraphEdge>)
    ensures k.Some? ==> (k.value == e1 || k.value == e2)
    ensures k.Some? ==> Joins(nodes, k.value, NicType, VmType) || Joins(nodes, k.value, NicType, PublicIpType)
    ensures k.None? && EndsKnown(nodes, e1) && EndsKnown(nodes, e2) ==>
      !Joins(nodes, e1, NicType, VmType) && !Joins(nodes, e2, NicType, VmType) &&
      !Joins(nodes, e1, NicType, PublicIpType) && !Joins(nodes, e2, NicType, PublicIpType)
  {
    if !(EndsKnown(nodes, e1) && EndsKnown(nodes, e2)) then None
    else if Joins(nodes, e1, NicType, VmType) then Some(e1)
    else if Joins(nodes, e2, NicType, VmType) then Some(e2)
    else if Joins(nodes, e1, NicType, PublicIpType) then Some(e1)
    else if Joins(nodes, e2, NicType, PublicIpType) then Some(e2)
    else None
  }

  /** What survives of one group of edges between the same two nodes. */
  function ResolvePair(nodes: seq<GraphNode>, group: seq<GraphEdge>): (kept: seq<GraphEdge>)
    ensures multiset(kept) <= multiset(group)
    ensures |group| != 2 ==> kept == group
    ensures kept != group ==> (&& |group| == 2 && |kept| == 1 && kept[0] in group
                               && (Joins(nodes, kept[0], NicType, VmType) || Joins(nodes, kept[0], NicType, PublicIpType)))
  {
    if |group| == 2 then
      match PreferredEdge(nodes, group[0], group[1])
      case Some(e) =>
        assert e in group;
        [e]
      case None => group
    else group
  }

  function ResolveGroups(nodes: seq<GraphNode>, groups: seq<(set<string>, seq<GraphEdge>)>): seq<GraphEdge> {
    if groups == [] then [] else ResolvePair(nodes, groups[0].1) + ResolveGroups(nodes, groups[1..])
  }

  /** `_filter_redundant_edges`: group by unordered end pair in first-seen order, resolve each group. */
  function FilterRedundantEdges(nodes: seq<GraphNode>, edges: seq<GraphEdge>): (kept: seq<GraphEdge>)
    ensures multiset(kept) <= multiset(edges)
  {
    var gs := GroupBy(edges, PairKeyFn());
    ResolveGroupsSubMultiset(nodes, gs);
    GroupByPermutation(edges, PairKeyFn());
    ResolveGroups(nodes, gs)
  }

  lemma {:induction false} ResolveGroupsSubMultiset(nodes: seq<GraphNode>, groups: seq<(set<string>, seq<GraphEdge>)>)
    ensures multiset(ResolveGroups(nodes, groups)) <= multiset(Flatten(groups))
  {
    if groups != [] {
      ResolveGroupsSubMultiset(nodes, groups[1..]);
    }
  }

  lemma {:induction false} ResolveGroupsMembers(nodes: seq<GraphNode>, groups: seq<(set<string>, seq<GraphEdge>)>)
    ensures forall e :: e in ResolveGroups(nodes, groups) <==>
      exists g :: g in groups && e in ResolvePair(nodes, g.1)
  {
    if groups != [] {
      ResolveGroupsMembers(nodes, groups[1..]);
      assert forall g :: g in groups <==> g == groups[0] || g in groups[1..];
    }
  }

  /** The filter only drops edges: the result is a sub-multiset of the input. */
  lemma FilterRedundantDropsOnly(nodes: seq<GraphNode>, edges: seq<GraphEdge>)
    ensures multiset(FilterRedundantEdges(nodes, edges)) <= multiset(edges)
  {
    var gs := GroupBy(edges, PairKeyFn());
    ResolveGroupsSubMultiset(nodes, gs);
    GroupByPermutation(edges, PairKeyFn());
  }

  /** The group of an edge's pair: every edge between the same two nodes, in input order. */
  lemma GroupOfEdge(edges: seq<GraphEdge>, e: GraphEdge) returns (i: nat)
    requires e in edges
    ensures var gs := GroupBy(edges, PairKeyFn());
      i < |gs| && gs[i].0 == PairKey(e) && gs[i].1 == WithKey(edges, PairKeyFn(), PairKey(e)) && e in gs[i].1
  {
    var gs := GroupBy(edges, PairKeyFn());
    GroupByGrouped(edges, PairKeyFn());
    DedupProperties(KeySeq(edges, PairKeyFn()));
    var j :| 0 <= j < |edges| && edges[j] == e;
    assert KeySeq(edges, PairKeyFn())[j] == PairKey(e);
    assert PairKey(e) in Keys(gs);
    i :| 0 <= i < |gs| && Keys(gs)[i] == PairKey(e);
    WithKeyMembers(edges, PairKeyFn(), PairKey(e));
  }

  /** An edge that is not one of exactly two edges between its ends is kept. */
  lemma UnpairedEdgeKept(nodes: seq<GraphNode>, edges: seq<GraphEdge>, e: GraphEdge)
    requires e in edges
    requires |WithKey(edges, PairKeyFn(), PairKey(e))| != 2
    ensures e in FilterRedundantEdges(nodes, edges)
  {
    var gs := GroupBy(edges, PairKeyFn());
    var i := GroupOfEdge(edges, e);
    ResolveGroupsMembers(nodes, gs);
    assert gs[i] in gs && e in ResolvePair(nodes, gs[i].1);
  }

  /**
   * A dropped edge has exactly one companion between the same two nodes, and
   * that companion is kept and runs from a NIC to a VM or a public IP.
   */
  lemma DroppedEdgeHasKeptPartner(nodes: seq<GraphNode>, edges: seq<GraphEdge>, e: GraphEdge)
    requires e in edges && e !in FilterRedundantEdges(nodes, edges)
    ensures |WithKey(edges, PairKeyFn(), PairKey(e))| == 2
    ensures exists k :: && k in FilterRedundantEdges(nodes, edges) && k != e && k in edges
                        && PairKey(k) == PairKey(e)
                        && (Joins(nodes, k, NicType, VmType) || Joins(nodes, k, NicType, PublicIpType))
  {
    var gs := GroupBy(edges, PairKeyFn());
    var i := GroupOfEdge(edges, e);
    ResolveGroupsMembers(nodes, gs);
    var group := gs[i].1;
    var kept := ResolvePair(nodes, group);
    assert e !in kept;
    var k := kept[0];
    assert gs[i] in gs;
    assert k in ResolveGroups(nodes, gs);
    WithKeyMembers(edges, PairKeyFn(), PairKey(e));
    assert k in group;
    assert PairKeyFn()(k) == PairKey(e);
  }

  // ------------------------------------------------------ filling the graph

  /** An attribute `add_node` receives: not `properties`, and not a dict or a list. */
  predicate GraphSafe(e: (string, Value)) {
    e.0 != "properties" && !e.1.VDict? && !e.1.VList?
  }

  function GraphSafeFn(): ((string, Value)) -> bool {
    e => GraphSafe(e)
  }

  /** The property keys copied onto graph nodes, each under a `prop_` prefix. */
  const EssentialProperties: set<string> := {
    "is_external_dependency", "is_placeholder", "is_cross_tenant", "access_note", "tenant_note", "hide_provider",
    "vm_size", "os_type", "os_sku", "os_disk_size_gb", "computer_name", "admin_username",
    "os_publisher", "os_offer", "network_interface_count",
    "disk_size_gb", "sku", "disk_state", "performance_tier", "encryption_enabled",
    "kind", "access_tier", "https_only",
    "private_ip", "ip_allocation", "has_public_ip", "public_ip_name",
    "subnet_name", "vnet_name", "nsg_name", "accelerated_networking",
    "ip_address", "allocation_method", "dns_label", "fqdn", "associated_resource",
    "address_space", "subnet_count", "subnet_names", "custom_dns",
    "address_prefix", "external_pls_connections"
  }

  predicate IsEssential(e: (string, Value)) {
    e.0 in EssentialProperties && IsScalar(e.1)
  }

  function IsEssentialFn(): ((string, Value)) -> bool {
    e => IsEssential(e)
  }

  /** Each key gets the `prop_` prefix. */
  function PrefixKeys(props: OMap<string, Value>): (r: OMap<string, Value>)
    ensures |r| == |props|
    ensures forall i :: 0 <= i < |props| ==> r[i] == ("prop_" + props[i].0, props[i].1)
  {
    if props == [] then [] else [("prop_" + props[0].0, props[0].1)] + PrefixKeys(props[1..])
  }

  /** The node's fields, then its safe attributes, merged as `{**fields, **safe}`. */
  function NodeData(n: GraphNode): OMap<string, Value> {
    Update(NodeFields(n), Filter(n.attributes, GraphSafeFn()))
  }

  /** The essential scalar properties, when the node's `properties` attribute is a dictionary. */
  function EssentialData(n: GraphNode): OMap<string, Value> {
    var p := Get(n.attributes, "properties");
    if p.Some? && p.value.VDict? then PrefixKeys(Filter(p.value.entries, IsEssentialFn())) else []
  }

  lemma {:induction false} PrefixKeysMembers(props: OMap<string, Value>)
    ensures forall e :: e in PrefixKeys(props) <==> |e.0| >= 5 && e.0[..5] == "prop_" && (e.0[5..], e.1) in props
  {
    if props != [] {
      PrefixKeysMembers(props[1..]);
      var h := ("prop_" + props[0].0, props[0].1);
      assert PrefixKeys(props) == [h] + PrefixKeys(props[1..]);
      assert h.0[..5] == "prop_" && h.0[5..] == props[0].0;
      forall e: (string, Value) | |e.0| >= 5 && e.0[..5] == "prop_" && e.0[5..] == props[0].0 && e.1 == props[0].1
        ensures e == h
      {
        assert e.0 == e.0[..5] + e.0[5..];
      }
      assert forall e :: e in props <==> e == props[0] || e in props[1..];
    }
  }

  /** The four node fields, as the node data starts. */
  function NodeFields(n: GraphNode): OMap<string, Value> {
    [("label", VStr(n.labelText)), ("name", VStr(n.name)), ("category", VStr(n.category)),
     ("resource_type", VStr(n.resourceType))]
  }

  lemma NodeFieldsStrings(n: GraphNode)
    ensures forall k :: Get(NodeFields(n), k).Some? ==> k != "properties" && Get(NodeFields(n), k).value.VStr?
  {
    var f := NodeFields(n);
    forall k | Get(f, k).Some? ensures k != "properties" && Get(f, k).value.VStr? {
      assert (k, Get(f, k).value) in f;
    }
  }

  /** The node data never holds the `properties` bag nor a dict or list value. */
  lemma NodeDataFlat(n: GraphNode)
    ensures forall k :: Get(NodeData(n), k).Some? ==>
      k != "properties" && !Get(NodeData(n), k).value.VDict? && !Get(NodeData(n), k).value.VList?
  {
    var safe := Filter(n.attributes, GraphSafeFn());
    FilterMembers(n.attributes, GraphSafeFn());
    NodeFieldsStrings(n);
    forall k | Get(NodeData(n), k).Some?
      ensures k != "properties" && !Get(NodeData(n), k).value.VDict? && !Get(NodeData(n), k).value.VList?
    {
      LastValueMember(safe, k);
      LastValueAbsent(safe, k);
      if k in Keys(safe) {
        var v := LastValue(safe, k).value;
        assert GraphSafeFn()((k, v)) == GraphSafe((k, v));
      }
    }
  }

  /** The node's label survives unless an attribute of that name overrides it. */
  lemma NodeDataLabel(n: GraphNode)
    requires "label" !in Keys(n.attributes)
    ensures Get(NodeData(n), "label") == Some(VStr(n.labelText))
  {
    var safe := Filter(n.attributes, GraphSafeFn());
    FilterMembers(n.attributes, GraphSafeFn());
    forall i | 0 <= i < |safe| ensures Keys(safe)[i] != "label" {
      assert safe[i] in safe;
      var j :| 0 <= j < |n.attributes| && n.attributes[j] == safe[i];
      assert Keys(n.attributes)[j] == safe[i].0;
    }
    assert "label" !in Keys(safe);
  }

  /**
   * The copied properties are exactly the essential keys with scalar values
   * from the `properties` dictionary, each under its `prop_` name.
   */
  lemma EssentialDataExact(n: GraphNode, props: OMap<string, Value>)
    requires Get(n.attributes, "properties") == Some(VDict(props))
    ensures forall e :: e in EssentialData(n) <==>
      && |e.0| >= 5 && e.0[..5] == "prop_"
      && e.0[5..] in EssentialProperties && IsScalar(e.1) && (e.0[5..], e.1) in props
  {
    var kept := Filter(props, IsEssentialFn());
    PrefixKeysMembers(kept);
    FilterMembers(props, IsEssentialFn());
    forall e: (string, Value) ensures IsEssentialFn()(e) == IsEssential(e) { }
  }

  /** Without a `properties` dictionary no property is copied. */
  lemma EssentialDataNeedsDict(n: GraphNode)
    requires Get(n.attributes, "properties").None? || !Get(n.attributes, "properties").value.VDict?
    ensures EssentialData(n) == []
  { }

  /** `add_node` with the node data, then one assignment per essential property. */
  function AddGraphNode(g: DiGraph, n: GraphNode): DiGraph {
    AddNode(AddNode(g, n.id, NodeData(n)), n.id, EssentialData(n))
  }

  function AddGraphNodes(g: DiGraph, nodes: seq<GraphNode>): DiGraph
    decreases |nodes|
  {
    if nodes == [] then g else AddGraphNodes(AddGraphNode(g, nodes[0]), nodes[1..])
  }

  /** The ids of the built nodes, in order. */
  function NodeIdList(nodes: seq<GraphNode>): seq<string> {
    if nodes == [] then [] else [nodes[0].id] + NodeIdList(nodes[1..])
  }

  /** The ends of the edges, source before target, in order. */
  function EdgeEnds(edges: seq<GraphEdge>): seq<string> {
    if edges == [] then [] else [edges[0].source, edges[0].target] + EdgeEnds(edges[1..])
  }

  /** The (source, target) keys of the edges, in order. */
  function EdgeKeys(edges: seq<GraphEdge>): seq<EdgeKey> {
    if edges == [] then [] else [(edges[0].source, edges[0].target)] + EdgeKeys(edges[1..])
  }

  /** Adding the nodes keeps the graph well formed, adds exactly their ids and no edge. */
  lemma AddGraphNodesShape(g: DiGraph, nodes: seq<GraphNode>)
    ensures var h := AddGraphNodes(g, nodes);
      && (WellFormed(g) ==> WellFormed(h))
      && (forall id :: id in Keys(h.nodes) <==> id in Keys(g.nodes) || id in NodeIdList(nodes))
      && h.edges == g.edges
  {
    if WellFormed(g) {
      AddGraphNodesWellFormed(g, nodes);
    }
    AddGraphNodesIds(g, nodes);
  }

  lemma {:induction false} AddGraphNodesWellFormed(g: DiGraph, nodes: seq<GraphNode>)
    requires WellFormed(g)
    ensures WellFormed(AddGraphNodes(g, nodes))
    decreases |nodes|
  {
    if nodes != [] {
      AddGraphNodesWellFormed(AddGraphNode(g, nodes[0]), nodes[1..]);
    }
  }

  lemma AddGraphNodeIds(g: DiGraph, n: GraphNode)
    ensures var g1 := AddGraphNode(g, n);
      && (forall id :: id in Keys(g1.nodes) <==> id in Keys(g.nodes) || id == n.id)
      && g1.edges == g.edges
  { }

  lemma NodeIdListCons(nodes: seq<GraphNode>)
    requires nodes != []
    ensures forall id :: id in NodeIdList(nodes) <==> id == nodes[0].id || id in NodeIdList(nodes[1..])
  { }

  lemma {:induction false} AddGraphNodesIds(g: DiGraph, nodes: seq<GraphNode>)
    ensures var h := AddGraphNodes(g, nodes);
      && (forall id :: id in Keys(h.nodes) <==> id in Keys(g.nodes) || id in NodeIdList(nodes))
      && h.edges == g.edges
    decreases |nodes|
  {
    if nodes != [] {
      var g1 := AddGraphNode(g, nodes[0]);
      AddGraphNodeIds(g, nodes[0]);
      AddGraphNodesIds(g1, nodes[1..]);
      NodeIdListCons(nodes);
    }
  }

  /** The attributes `add_edge` receives: label and edge type, then the edge's own attributes. */
  function EdgeData(e: GraphEdge): OMap<string, string> {
    Update([("label", e.labelText), ("edge_type", e.edgeType)], e.attributes)
  }

  function AddGraphEdges(g: DiGraph, edges: seq<GraphEdge>): DiGraph
    decreases |edges|
  {
    if edges == [] then g
    else AddGraphEdges(AddEdge(g, edges[0].source, edges[0].target, EdgeData(edges[0])), edges[1..])
  }

  /**
   * Adding the edges keeps the graph well formed; the nodes gained are exactly
   * the edge ends and the edge keys gained exactly the edges' pairs.
   */
  lemma {:induction false} AddGraphEdgesShape(g: DiGraph, edges: seq<GraphEdge>)
    ensures var h := AddGraphEdges(g, edges);
      && (WellFormed(g) ==> WellFormed(h))
      && (forall id :: id in Keys(h.nodes) <==> id in Keys(g.nodes) || id in EdgeEnds(edges))
      && (forall k :: k in Keys(h.edges) <==> k in Keys(g.edges) || k in EdgeKeys(edges))
  {
    if WellFormed(g) {
      AddGraphEdgesWellFormed(g, edges);
    }
    AddGraphEdgesNodes(g, edges);
    AddGraphEdgesKeys(g, edges);
  }

  lemma {:induction false} AddGraphEdgesWellFormed(g: DiGraph, edges: seq<GraphEdge>)
    requires WellFormed(g)
    ensures WellFormed(AddGraphEdges(g, edges))
    decreases |edges|
  {
    if edges != [] {
      var e := edges[0];
      AddEdgeWellFormed(g, e.source, e.target, EdgeData(e));
      AddGraphEdgesWellFormed(AddEdge(g, e.source, e.target, EdgeData(e)), edges[1..]);
    }
  }

  lemma AddEdgeNodeIds(g: DiGraph, e: GraphEdge)
    ensures forall id :: id in Keys(AddEdge(g, e.source, e.target, EdgeData(e)).nodes) <==>
      id in Keys(g.nodes) || id == e.source || id == e.target
  { }

  lemma EdgeEndsCons(edges: seq<GraphEdge>)
    requires edges != []
    ensures forall id :: id in EdgeEnds(edges) <==>
      id == edges[0].source || id == edges[0].target || id in EdgeEnds(edges[1..])
  { }

  lemma {:induction false} AddGraphEdgesNodes(g: DiGraph, edges: seq<GraphEdge>)
    ensures forall id :: id in Keys(AddGraphEdges(g, edges).nodes) <==> id in Keys(g.nodes) || id in EdgeEnds(edges)
    decreases |edges|
  {
    if edges != [] {
      var e := edges[0];
      AddEdgeNodeIds(g, e);
      AddGraphEdgesNodes(AddEdge(g, e.source, e.target, EdgeData(e)), edges[1..]);
      EdgeEndsCons(edges);
    }
  }

  lemma {:induction false} AddGraphEdgesKeys(g: DiGraph, edges: seq<GraphEdge>)
    ensures forall k :: k in Keys(AddGraphEdges(g, edges).edges) <==> k in Keys(g.edges) || k in EdgeKeys(edges)
    decreases |edges|
  {
    if edges != [] {
      var e := edges[0];
      var g1 := AddEdge(g, e.source, e.target, EdgeData(e));
      assert forall k :: k in Keys(g1.edges) <==> k in Keys(g.edges) || k == (e.source, e.target);
      AddGraphEdgesKeys(g1, edges[1..]);
      assert forall k :: k in EdgeKeys(edges) <==> k == (e.source, e.target) || k in EdgeKeys(edges[1..]);
    }
  }

  /** `_populate_networkx_graph` on a cleared graph: the nodes, then the edges that survive the pair filter. */
  function Populate(nodes: seq<GraphNode>, edges: seq<GraphEdge>): DiGraph {
    AddGraphEdges(AddGraphNodes(EmptyGraph, nodes), FilterRedundantEdges(nodes, edges))
  }

  /**
   * The populated graph is well formed; its nodes are the built nodes and the
   * ends of the surviving edges, and its edges are exactly the surviving pairs.
   */
  lemma PopulateShape(nodes: seq<GraphNode>, edges: seq<GraphEdge>)
    ensures var g := Populate(nodes, edges);
      var kept := FilterRedundantEdges(nodes, edges);
      && WellFormed(g)
      && (forall id :: id in Keys(g.nodes) <==> id in NodeIdList(nodes) || id in EdgeEnds(kept))
      && (forall k :: k in Keys(g.edges) <==> k in EdgeKeys(kept))
  {
    var g0 := AddGraphNodes(EmptyGraph, nodes);
    assert WellFormed(EmptyGraph);
    AddGraphNodesShape(EmptyGraph, nodes);
    AddGraphEdgesShape(g0, FilterRedundantEdges(nodes, edges));
  }

  // ------------------------------------------------------------- clusters

  /** One resource-group cluster: its member node ids and its drawing attributes. */
  datatype Cluster = Cluster(members: seq<string>, caption: string, style: string, fillColor: string, fontSize: string)

  function ClusterOf(rg: string, members: seq<string>): Cluster {
    Cluster(members, "Resource Group: " + rg, "filled", "lightgray", "12")
  }

  function ClusterKey(rg: string): string {
    "cluster_" + rg
  }

  /** Internet gateways stay outside every cluster. */
  predicate Clustered(r: Resource) {
    Lower(r.resourceType) != "internet/gateway"
  }

  function ClusteredFn(): Resource -> bool {
    r => Clustered(r)
  }

  function ResourceGroupFn(): Resource -> string {
    (r: Resource) => r.resourceGroup
  }

  /** The node ids of the resources that are nodes of the graph, in order. */
  function PresentIds(rs: seq<Resource>, g: DiGraph): (ids: seq<string>)
    ensures forall id :: id in ids ==> id in Keys(g.nodes)
  {
    if rs == [] then []
    else (if NodeId(rs[0]) in Keys(g.nodes) then [NodeId(rs[0])] else []) + PresentIds(rs[1..], g)
  }

  /** One assignment per group, made only when some of its resources are in the graph. */
  function StoreClusters(subgraphs: OMap<string, Cluster>, groups: seq<(string, seq<Resource>)>, g: DiGraph): OMap<string, Cluster>
    decreases |groups|
  {
    if groups == [] then subgraphs
    else
      var ids := PresentIds(groups[0].1, g);
      var next := if ids != [] then Put(subgraphs, ClusterKey(groups[0].0), ClusterOf(groups[0].0, ids)) else subgraphs;
      StoreClusters(next, groups[1..], g)
  }

  /**
   * `_create_subgraphs`: the clusters are stored into the builder's existing
   * map, which `build_graph` does not clear.
   */
  function CreateSubgraphs(subgraphs: OMap<string, Cluster>, resources: seq<Resource>, g: DiGraph): OMap<string, Cluster> {
    StoreClusters(subgraphs, GroupBy(Filter(resources, ClusteredFn()), ResourceGroupFn()), g)
  }

  lemma ClusterKeyInjective(a: string, b: string)
    ensures ClusterKey(a) == ClusterKey(b) <==> a == b
  {
    if ClusterKey(a) == ClusterKey(b) {
      assert a == ClusterKey(a)[8..];
    }
  }

  lemma DistinctKeysTail<V>(m: OMap<string, V>)
    requires m != [] && Distinct(Keys(m))
    ensures Distinct(Keys(m[1..])) && m[0].0 !in Keys(m[1..])
  {
    var ks := Keys(m);
    assert ks == [m[0].0] + Keys(m[1..]);
    forall i, j | 0 <= i < j < |ks| - 1 ensures Keys(m[1..])[i] != Keys(m[1..])[j] {
      assert ks[i + 1] != ks[j + 1];
    }
    forall j | 0 <= j < |ks| - 1 ensures Keys(m[1..])[j] != m[0].0 {
      assert ks[0] != ks[j + 1];
    }
  }

  /** Storing the groups sets each group's key exactly as its own step decides; other keys keep their value. */
  lemma {:induction false} StoreClustersLookup(subgraphs: OMap<string, Cluster>, groups: seq<(string, seq<Resource>)>,
                                               g: DiGraph, rg: string)
    requires Distinct(Keys(groups))
    ensures var r := StoreClusters(subgraphs, groups, g);
      var group := Get(groups, rg);
      Get(r, ClusterKey(rg)) ==
        if group.Some? && PresentIds(group.value, g) != [] then Some(ClusterOf(rg, PresentIds(group.value, g)))
        else Get(subgraphs, ClusterKey(rg))
    decreases |groups|
  {
    if groups != [] {
      var rest := groups[1..];
      var ids := PresentIds(groups[0].1, g);
      var next := if ids != [] then Put(subgraphs, ClusterKey(groups[0].0), ClusterOf(groups[0].0, ids)) else subgraphs;
      assert StoreClusters(subgraphs, groups, g) == StoreClusters(next, rest, g);
      DistinctKeysTail(groups);
      StoreClustersLookup(next, rest, g, rg);
      ClusterKeyInjective(rg, groups[0].0);
      if groups[0].0 == rg {
        assert Get(groups, rg) == Some(groups[0].1);
        assert Get(rest, rg).None?;
      } else {
        assert Get(groups, rg) == Get(rest, rg);
        assert Get(next, ClusterKey(rg)) == Get(subgraphs, ClusterKey(rg));
      }
    }
  }

  /** Keys that are not cluster keys are left alone. */
  lemma {:induction false} StoreClustersOtherKeys(subgraphs: OMap<string, Cluster>, groups: seq<(string, seq<Resource>)>,
                                                  g: DiGraph, k: string)
    requires |k| < 8 || k[..8] != "cluster_"
    ensures Get(StoreClusters(subgraphs, groups, g), k) == Get(subgraphs, k)
    decreases |groups|
  {
    if groups != [] {
      var ids := PresentIds(groups[0].1, g);
      var next := if ids != [] then Put(subgraphs, ClusterKey(groups[0].0), ClusterOf(groups[0].0, ids)) else subgraphs;
      assert ClusterKey(groups[0].0)[..8] == "cluster_";
      StoreClustersOtherKeys(next, groups[1..], g, k);
    }
  }

  /**
   * The cluster of a resource group lists, in resource order, the graph nodes
   * of that group's resources other than internet gateways; with none, the
   * earlier entry under that key is left as it was.
   */
  lemma SubgraphOfGroup(subgraphs: OMap<string, Cluster>, resources: seq<Resource>, g: DiGraph, rg: string)
    ensures var members := PresentIds(WithKey(Filter(resources, ClusteredFn()), ResourceGroupFn(), rg), g);
      Get(CreateSubgraphs(subgraphs, resources, g), ClusterKey(rg)) ==
        if members != [] then Some(ClusterOf(rg, members)) else Get(subgraphs, ClusterKey(rg))
  {
    var xs := Filter(resources, ClusteredFn());
    var gs := GroupBy(xs, ResourceGroupFn());
    GroupByGrouped(xs, ResourceGroupFn());
    DedupProperties(KeySeq(xs, ResourceGroupFn()));
    StoreClustersLookup(subgraphs, gs, g, rg);
    var group := Get(gs, rg);
    if group.Some? {
      var i :| 0 <= i < |gs| && gs[i] == (rg, group.value);
      assert gs[i].1 == WithKey(xs, ResourceGroupFn(), gs[i].0);
    } else {
      WithKeyAbsent(xs, ResourceGroupFn(), rg);
    }
  }

  /** Only cluster keys change. */
  lemma SubgraphsKeepOtherKeys(subgraphs: OMap<string, Cluster>, resources: seq<Resource>, g: DiGraph, k: string)
    requires |k| < 8 || k[..8] != "cluster_"
    ensures Get(CreateSubgraphs(subgraphs, resources, g), k) == Get(subgraphs, k)
  {
    StoreClustersOtherKeys(subgraphs, GroupBy(Filter(resources, ClusteredFn()), ResourceGroupFn()), g, k);
  }

  /** A stored cluster is non-empty and lists nodes of the graph, unless it was stored earlier. */
  lemma {:induction false} StoreClustersMembers(subgraphs: OMap<string, Cluster>, groups: seq<(string, seq<Resource>)>,
                                                g: DiGraph, k: string)
    ensures var c := Get(StoreClusters(subgraphs, groups, g), k);
      c.Some? ==> c == Get(subgraphs, k) || (c.value.members != [] && forall m :: m in c.value.members ==> m in Keys(g.nodes))
    decreases |groups|
  {
    if groups != [] {
      var ids := PresentIds(groups[0].1, g);
      var next := if ids != [] then Put(subgraphs, ClusterKey(groups[0].0), ClusterOf(groups[0].0, ids)) else subgraphs;
      StoreClustersMembers(next, groups[1..], g, k);
    }
  }

  /** The graph nodes among the resources are exactly the ids of resources that are nodes. */
  lemma {:induction false} PresentIdsMembers(rs: seq<Resource>, g: DiGraph)
    ensures forall id :: id in PresentIds(rs, g) <==> id in Keys(g.nodes) && exists r :: r in rs && NodeId(r) == id
  {
    if rs != [] {
      PresentIdsMembers(rs[1..], g);
      assert forall r :: r in rs <==> r == rs[0] || r in rs[1..];
    }
  }

  // ----------------------------------------------------------- build_graph

  /** What the builder holds after `build_graph`: the directed graph and its clusters. */
  datatype Built = Built(graph: DiGraph, subgraphs: OMap<string, Cluster>)

  /** The builder's steps after filtering: nodes, edges, the filled graph and its clusters. */
  function Assemble(config: VisualizationConfig, filtered: seq<Resource>, topology: NetworkTopology,
                    subgraphs: OMap<string, Cluster>): Built
  {
    var g := Populate(ResourceNodes(filtered, config), BuilderEdges(topology, filtered));
    Built(g, CreateSubgraphs(subgraphs, filtered, g))
  }

  /**
   * `build_graph`: filter, group, build the nodes, then the association, DNS
   * and dependency edges, fill the cleared graph and store the clusters into
   * the builder's earlier cluster map.
   */
  function BuildGraph(config: VisualizationConfig, resources: seq<Resource>, topology: NetworkTopology,
                      subgraphs: OMap<string, Cluster>): (b: Built)
    ensures var filtered := FilterResources(resources, config);
      var nodes := ResourceNodes(filtered, config);
      var kept := FilterRedundantEdges(nodes, BuilderEdges(topology, filtered));
      && WellFormed(b.graph)
      && (forall id :: id in Keys(b.graph.nodes) <==> id in NodeIdList(nodes) || id in EdgeEnds(kept))
      && (forall key :: key in Keys(b.graph.edges) <==> key in EdgeKeys(kept))
  {
    AssembleShape(config, FilterResources(resources, config), topology, subgraphs);
    Assemble(config, FilterResources(resources, config), topology, subgraphs)
  }

  /**
   * The built graph is well formed and holds exactly the nodes built from the
   * filtered resources plus the ends of the edges kept by the pair filter.
   */
  lemma AssembleShape(config: VisualizationConfig, filtered: seq<Resource>, topology: NetworkTopology,
                      subgraphs: OMap<string, Cluster>)
    ensures var nodes := ResourceNodes(filtered, config);
      var kept := FilterRedundantEdges(nodes, BuilderEdges(topology, filtered));
      var g := Assemble(config, filtered, topology, subgraphs).graph;
      && WellFormed(g)
      && (forall id :: id in Keys(g.nodes) <==> id in NodeIdList(nodes) || id in EdgeEnds(kept))
      && (forall key :: key in Keys(g.edges) <==> key in EdgeKeys(kept))
  {
    PopulateShape(ResourceNodes(filtered, config), BuilderEdges(topology, filtered));
  }

  /** A cluster not carried over from earlier is non-empty and lists graph nodes only. */
  lemma SubgraphMembersInGraph(subgraphs: OMap<string, Cluster>, resources: seq<Resource>, g: DiGraph, k: string)
    ensures var c := Get(CreateSubgraphs(subgraphs, resources, g), k);
      c.Some? ==> c == Get(subgraphs, k) || (c.value.members != [] && forall m :: m in c.value.members ==> m in Keys(g.nodes))
  {
    StoreClustersMembers(subgraphs, GroupBy(Filter(resources, ClusteredFn()), ResourceGroupFn()), g, k);
  }
}
