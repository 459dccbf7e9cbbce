/**
 * Edge creation in the graph builder: association edges from the network
 * topology, dependency edges with their type-pair classifier, and the
 * DNS-zone heuristic edges.
 */
module EdgeBuilder {
  import opened Wrappers
  import opened Text
  import opened OMaps
  import opened Seqs
  import opened Models
  import opened NodeIds

  /** An optional item as a list of zero or one items. */
  function OptionList<T(!new)>(o: Option<T>): (xs: seq<T>)
    ensures |xs| <= 1
    ensures forall x :: x in xs <==> o == Some(x)
  {
    match o
    case None => []
    case Some(x) => [x]
  }

  // --------------------------------------------------------- resource ids

  /** The full resource id the builder reconstructs from a resource's fields. */
  function ResourceIdOf(r: Resource): string {
    "/" + "subscriptions" + "/" + r.subscriptionId + "/" + "resourceGroups" + "/" + r.resourceGroup
      + "/" + "providers" + "/" + r.resourceType + "/" + r.name
  }

  /** `_extract_resource_name_from_id`: the last '/' part of an id with nine or more parts, else the id. */
  function ExtractResourceNameFromId(id: string): (name: string)
    ensures id == "" ==> name == ""
    ensures '/' !in id ==> name == id
    ensures name == id || '/' !in name
  {
    if id == "" then ""
    else
      var parts := Split(id, '/');
      assert '/' !in id ==> parts == [id] by {
        if '/' !in id {
          SplitNoSeparator(id, '/');
        }
      }
      SplitPartsFree(id, '/');
      if |parts| >= 9 then parts[|parts| - 1] else id
  }

  /** Each separator adds a part: the parts of `a + [c] + b` outnumber those of `a`. */
  lemma SplitGrows(a: string, b: string, c: char)
    ensures |Split(a + [c] + b, c)| >= |Split(a, c)| + 1
  {
    SplitConcat(a, b, c);
  }

  /** Eight separators between nine pieces give at least nine parts, whatever the pieces hold. */
  lemma NineParts(w1: string, s: string, w2: string, g: string, w3: string, t1: string, t2: string, n: string, c: char)
    ensures |Split([c] + w1 + [c] + s + [c] + w2 + [c] + g + [c] + w3 + [c] + t1 + [c] + t2 + [c] + n, c)| >= 9
  {
    var x7 := [] + [c] + w1;
    var x6 := x7 + [c] + s;
    var x5 := x6 + [c] + w2;
    var x4 := x5 + [c] + g;
    var x3 := x4 + [c] + w3;
    var x2 := x3 + [c] + t1;
    var x1 := x2 + [c] + t2;
    SplitGrows([], w1, c);
    SplitGrows(x7, s, c);
    SplitGrows(x6, w2, c);
    SplitGrows(x5, g, c);
    SplitGrows(x4, w3, c);
    SplitGrows(x3, t1, c);
    SplitGrows(x2, t2, c);
    SplitGrows(x1, n, c);
    assert [c] + w1 == x7;
  }

  /** A reconstructed id whose type holds a '/' splits into at least nine parts. */
  lemma ResourceIdParts(r: Resource)
    requires '/' in r.resourceType
    ensures |Split(ResourceIdOf(r), '/')| >= 9
  {
    var k :| 0 <= k < |r.resourceType| && r.resourceType[k] == '/';
    var t1, t2 := r.resourceType[..k], r.resourceType[k + 1..];
    assert r.resourceType == t1 + ['/'] + t2;
    var head := "/" + "subscriptions" + "/" + r.subscriptionId + "/" + "resourceGroups" + "/" + r.resourceGroup + "/" + "providers" + "/";
    assert ResourceIdOf(r) == head + r.resourceType + "/" + r.name;
    assert head + r.resourceType == head + t1 + "/" + t2;
    NineParts("subscriptions", r.subscriptionId, "resourceGroups", r.resourceGroup, "providers", t1, t2, r.name, '/');
  }

  /** Round trip: the name is recovered from a reconstructed id when it has no '/' and the type has one. */
  lemma ExtractNameFromResourceId(r: Resource)
    requires '/' !in r.name && '/' in r.resourceType
    ensures ExtractResourceNameFromId(ResourceIdOf(r)) == r.name
  {
    var k :| 0 <= k < |r.resourceType| && r.resourceType[k] == '/';
    var prefix := "/" + "subscriptions" + "/" + r.subscriptionId + "/" + "resourceGroups" + "/" + r.resourceGroup
      + "/" + "providers" + "/" + r.resourceType;
    assert ResourceIdOf(r) == prefix + ['/'] + r.name;
    SplitConcat(prefix, r.name, '/');
    SplitNoSeparator(r.name, '/');
    ResourceIdParts(r);
  }

  // ------------------------------------------------------ association edges

  /** The secondary key of the lookup table: the name, '_' and the lower-cased type suffix. */
  function NameKey(r: Resource): string {
    r.name + "_" + TypeSuffix(r.resourceType)
  }

  /** Every entry of a lookup table stores a resource of `rs` under one of its two keys. */
  predicate IndexesResources(m: OMap<string, Resource>, rs: seq<Resource>) {
    forall e :: e in m ==> e.1 in rs && (e.0 == ResourceIdOf(e.1) || e.0 == NameKey(e.1))
  }

  /** The `resource_by_id` table: each resource under its full id, then under its name key. */
  function IndexResources(rs: seq<Resource>): OMap<string, Resource> {
    if rs == [] then []
    else
      var x := Last(rs);
      Put(Put(IndexResources(rs[..|rs| - 1]), ResourceIdOf(x), x), NameKey(x), x)
  }

  /** One more resource adds entries for it under its two keys and keeps every key. */
  lemma IndexStep(init: seq<Resource>, x: Resource)
    ensures forall e :: e in IndexResources(init + [x]) ==>
      e in IndexResources(init) || (e.1 == x && (e.0 == ResourceIdOf(x) || e.0 == NameKey(x)))
    ensures forall k :: k in Keys(IndexResources(init)) ==> k in Keys(IndexResources(init + [x]))
    ensures ResourceIdOf(x) in Keys(IndexResources(init + [x])) && NameKey(x) in Keys(IndexResources(init + [x]))
  {
    assert (init + [x])[..|init + [x]| - 1] == init;
    var m0 := IndexResources(init);
    var m1 := Put(m0, ResourceIdOf(x), x);
    PutEntries(m0, ResourceIdOf(x), x);
    PutEntries(m1, NameKey(x), x);
  }

  /** The table holds only resources of `rs`, under their own keys, and has both keys of each. */
  lemma {:induction false} IndexResourcesSound(rs: seq<Resource>)
    ensures IndexesResources(IndexResources(rs), rs)
    ensures forall r :: r in rs ==> ResourceIdOf(r) in Keys(IndexResources(rs)) && NameKey(r) in Keys(IndexResources(rs))
  {
    if rs != [] {
      var init := rs[..|rs| - 1];
      var x := Last(rs);
      assert rs == init + [x];
      IndexResourcesSound(init);
      IndexStep(init, x);
      assert forall r :: r in rs ==> r in init || r == x;
    }
  }

  /** The name fallback: the first entry whose key starts with `name_` and whose resource is named `name`. */
  function FindByName(m: OMap<string, Resource>, name: string): (r: Option<Resource>)
    ensures r.Some? ==> r.value.name == name && exists e :: e in m && e.1 == r.value
    ensures r.None? <==> forall e :: e in m ==> !(StartsWith(e.0, name + "_") && e.1.name == name)
  {
    if m == [] then None
    else if StartsWith(m[0].0, name + "_") && m[0].1.name == name then
      assert m[0] in m;
      Some(m[0].1)
    else
      var r := FindByName(m[1..], name);
      assert forall e :: e in m <==> e == m[0] || e in m[1..];
      r
  }

  /** Lookup by full id, falling back to the name extracted from the id. */
  function Resolve(m: OMap<string, Resource>, id: string): (r: Option<Resource>)
    ensures r.Some? && id !in Keys(m) ==> r.value.name == ExtractResourceNameFromId(id)
    ensures r.Some? ==> exists e :: e in m && e.1 == r.value
  {
    if id in Keys(m) then Get(m, id) else FindByName(m, ExtractResourceNameFromId(id))
  }

  /** A resolved end is one of the resources, found by its own full id or name key, or by name. */
  lemma ResolveSound(rs: seq<Resource>, id: string)
    ensures var r := Resolve(IndexResources(rs), id);
      r.Some? ==> (r.value in rs &&
        (if id in Keys(IndexResources(rs)) then ResourceIdOf(r.value) == id || NameKey(r.value) == id
         else r.value.name == ExtractResourceNameFromId(id)))
  {
    var m := IndexResources(rs);
    IndexResourcesSound(rs);
    if id in Keys(m) {
      var v := Get(m, id).value;
      assert (id, v) in m;
    } else {
      var found := FindByName(m, ExtractResourceNameFromId(id));
      if found.Some? {
        var e :| e in m && e.1 == found.value;
      }
    }
  }

  /** A resource's own full id always resolves. */
  lemma ResolveOwnId(rs: seq<Resource>, r: Resource)
    requires r in rs
    ensures Resolve(IndexResources(rs), ResourceIdOf(r)).Some?
  {
    IndexResourcesSound(rs);
  }

  const AssociationAttributes: OMap<string, string> := [("style", "solid"), ("color", "blue")]

  /** The edge of one association, when both of its ends resolve. */
  function AssociationEdge(a: Association, m: OMap<string, Resource>): (e: Option<GraphEdge>)
    ensures e.Some? <==> Resolve(m, a.sourceId).Some? && Resolve(m, a.targetId).Some?
    ensures e.Some? ==> && e.value.source == NodeId(Resolve(m, a.sourceId).value)
                        && e.value.target == NodeId(Resolve(m, a.targetId).value)
                        && e.value.labelText == a.associationType
                        && e.value.edgeType == KindName(AssociationKind)
  {
    match (Resolve(m, a.sourceId), Resolve(m, a.targetId))
    case (Some(s), Some(t)) => Some(GraphEdge(NodeId(s), NodeId(t), a.associationType, KindName(AssociationKind), AssociationAttributes))
    case _ => None
  }

  /** `_create_network_edges`: one edge per association whose two ends resolve, in association order. */
  function AssociationEdges(associations: seq<Association>, resources: seq<Resource>): (edges: seq<GraphEdge>)
    ensures |edges| <= |associations|
    ensures forall e :: e in edges ==> e.edgeType == KindName(AssociationKind) && e.attributes == AssociationAttributes
    ensures forall e :: e in edges <==> exists a :: a in associations && AssociationEdge(a, IndexResources(resources)) == Some(e)
  {
    if associations == [] then []
    else
      var here := OptionList(AssociationEdge(associations[0], IndexResources(resources)));
      var rest := AssociationEdges(associations[1..], resources);
      assert forall a :: a in associations <==> a == associations[0] || a in associations[1..];
      assert forall e :: e in here + rest <==> e in here || e in rest;
      here + rest
  }

  /** An association yields an edge exactly when both of its ends resolve. */
  lemma {:induction false} AssociationEdgesComplete(associations: seq<Association>, resources: seq<Resource>, a: Association)
    requires a in associations
    requires Resolve(IndexResources(resources), a.sourceId).Some? && Resolve(IndexResources(resources), a.targetId).Some?
    ensures AssociationEdge(a, IndexResources(resources)).value in AssociationEdges(associations, resources)
  {
    if associations[0] != a {
      AssociationEdgesComplete(associations[1..], resources, a);
    }
  }

  // ------------------------------------------------------- dependency edges

  /** `{r.name: r for r in resources}`. */
  function NameIndex(rs: seq<Resource>): OMap<string, Resource> {
    if rs == [] then [] else Put(NameIndex(rs[..|rs| - 1]), Last(rs).name, Last(rs))
  }

  predicate HasName(n: string, x: Resource) {
    x.name == n
  }

  function NamedFn(n: string): Resource -> bool {
    x => HasName(n, x)
  }

  /** One more resource: its own name now finds it, other names are unaffected. */
  lemma NameIndexStep(init: seq<Resource>, x: Resource, n: string)
    ensures Get(NameIndex(init + [x]), n) == if x.name == n then Some(x) else Get(NameIndex(init), n)
  {
    assert (init + [x])[..|init + [x]| - 1] == init;
  }

  lemma NamedStep(init: seq<Resource>, x: Resource, n: string)
    ensures Filter(init + [x], NamedFn(n)) == Filter(init, NamedFn(n)) + (if x.name == n then [x] else [])
  {
    FilterAppend(init, x, NamedFn(n));
  }

  /** Among resources sharing a name, the last one wins. */
  lemma {:induction false} NameIndexLastWins(rs: seq<Resource>, n: string)
    ensures var named := Filter(rs, NamedFn(n));
      Get(NameIndex(rs), n) == if named == [] then None else Some(Last(named))
  {
    if rs != [] {
      var init := rs[..|rs| - 1];
      var x := Last(rs);
      assert rs == init + [x];
      NameIndexLastWins(init, n);
      NameIndexStep(init, x, n);
      NamedStep(init, x, n);
      if x.name == n {
        assert Last(Filter(init, NamedFn(n)) + [x]) == x;
      }
    }
  }

  /** A name is found exactly when some resource has it, and what is found is that resource. */
  lemma NameIndexSound(rs: seq<Resource>, n: string)
    ensures Get(NameIndex(rs), n).Some? <==> exists x :: x in rs && x.name == n
    ensures Get(NameIndex(rs), n).Some? ==> Get(NameIndex(rs), n).value in rs && Get(NameIndex(rs), n).value.name == n
  {
    var named := Filter(rs, NamedFn(n));
    NameIndexLastWins(rs, n);
    FilterMembers(rs, NamedFn(n));
    if named != [] {
      assert Last(named) in named;
    } else {
      forall x | x in rs ensures x.name != n {
        assert x !in named;
      }
    }
  }

  const VirtualMachines: string := "Microsoft.Compute/virtualMachines"
  const Disks: string := "Microsoft.Compute/disks"
  const PrivateEndpoints: string := "Microsoft.Network/privateEndpoints"
  const NetworkInterfaces: string := "Microsoft.Network/networkInterfaces"
  const PrivateLinkServices: string := "Microsoft.Network/privateLinkServices"
  const LoadBalancers: string := "Microsoft.Network/loadBalancers"
  const Subnets: string := "Microsoft.Network/virtualNetworks/subnets"
  const InternetGateway: string := "Internet/Gateway"
  const PublicIps: string := "Microsoft.Network/publicIPAddresses"
  const SecurityGroups: string := "Microsoft.Network/networkSecurityGroups"
  const StorageAccounts: string := "Microsoft.Storage/storageAccounts"
  const VirtualNetworks: string := "Microsoft.Network/virtualNetworks"
  const OpenShiftClusters: string := "Microsoft.RedHatOpenShift/OpenShiftClusters"
  const SshPublicKeys: string := "Microsoft.Compute/sshPublicKeys"
  const Galleries: string := "Microsoft.Compute/galleries"
  const GalleryImages: string := "Microsoft.Compute/galleries/images"
  const GalleryImageVersions: string := "Microsoft.Compute/galleries/images/versions"
  const ScaleSets: string := "Microsoft.Compute/virtualMachineScaleSets"
  const ManagedClusters: string := "Microsoft.ContainerService/managedClusters"
  const WebSites: string := "Microsoft.Web/sites"
  const UserAssignedIdentities: string := "Microsoft.ManagedIdentity/userAssignedIdentities"
  const VNetLinks: string := "Microsoft.Network/privateDnsZones/virtualNetworkLinks"
  const PrivateDnsZones: string := "Microsoft.Network/privateDnsZones"
  const RouteTables: string := "Microsoft.Network/routeTables"
  const DnsZones: string := "Microsoft.Network/dnszones"

  /** The label and attributes of a dependency edge. */
  datatype EdgeStyle = EdgeStyle(caption: string, attributes: OMap<string, string>)

  function Styled(caption: string, style: string, color: string, penwidth: string, weight: string, minlen: string): EdgeStyle {
    EdgeStyle(caption, [("style", style), ("color", color), ("penwidth", penwidth), ("weight", weight), ("minlen", minlen)])
  }

  /** The type pairs with a fixed style, matched on the exact type strings. */
  function FixedRule(src: string, tgt: string): Option<EdgeStyle> {
    if src == VirtualMachines && tgt == Disks then Some(Styled("attached", "solid", "darkgreen", "2", "10", "1"))
    else if src == PrivateEndpoints && tgt == NetworkInterfaces then Some(Styled("uses", "solid", "purple", "2", "8", "1"))
    else if src == PrivateLinkServices && tgt == NetworkInterfaces then Some(Styled("uses", "solid", "orange", "2", "8", "1"))
    else if src == PrivateLinkServices && tgt == LoadBalancers then Some(Styled("fronts", "solid", "blue", "2", "9", "1"))
    else if src == PrivateEndpoints && tgt == Subnets then Some(Styled("deployed in", "solid", "cyan", "2", "5", "1"))
    else if src == NetworkInterfaces && tgt == Subnets then
      Some(EdgeStyle("in", [("style", "dashed"), ("color", "lime"), ("penwidth", "2"), ("weight", "3"), ("minlen", "1"), ("constraint", "true")]))
    else if src == InternetGateway && tgt == PublicIps then Some(Styled("connected", "solid", "yellow", "3", "10", "1"))
    else if src == SecurityGroups && tgt == Subnets then Some(Styled("secures", "solid", "red", "2", "7", "1"))
    else if src == VirtualNetworks && tgt == Subnets then Some(Styled("contains", "solid", "darkblue", "2", "8", "1"))
    else if src == VirtualNetworks && tgt == PrivateEndpoints then Some(Styled("contains", "solid", "darkblue", "2", "8", "1"))
    else if src == OpenShiftClusters && tgt == Subnets then Some(Styled("deployed in", "solid", "darkred", "3", "9", "1"))
    else if src == OpenShiftClusters && tgt == VirtualNetworks then Some(Styled("uses network", "solid", "darkred", "3", "9", "1"))
    else if src == OpenShiftClusters && tgt == StorageAccounts then Some(Styled("uses storage", "solid", "darkred", "2", "6", "1"))
    else if src == VirtualMachines && tgt == SshPublicKeys then Some(Styled("authenticates", "solid", "gold", "2", "7", "1"))
    else if src == GalleryImages && tgt == Galleries then Some(Styled("contained in", "solid", "purple", "2", "8", "1"))
    else if src == GalleryImageVersions && tgt == GalleryImages then Some(Styled("version of", "solid", "purple", "2", "8", "1"))
    else if src in [VirtualMachines, ScaleSets, ManagedClusters, OpenShiftClusters, WebSites] && tgt == UserAssignedIdentities then
      Some(Styled("uses identity", "solid", "teal", "2", "6", "1"))
    else if src == VNetLinks && tgt == PrivateDnsZones then Some(Styled("links to", "solid", "darkgreen", "2", "8", "1"))
    else if src == VNetLinks && tgt == VirtualNetworks then Some(Styled("connects to", "solid", "darkgreen", "2", "7", "1"))
    else if src == PrivateDnsZones && tgt == VirtualNetworks then Some(Styled("provides DNS for", "dashed", "darkgreen", "2", "5", "2"))
    else if src == Subnets && tgt == RouteTables then Some(Styled("uses routing", "solid", "orange", "2", "6", "1"))
    else if src == DnsZones && tgt == LoadBalancers then Some(Styled("resolves to", "solid", "navy", "2", "5", "2"))
    else if src == DnsZones && tgt == PublicIps then Some(Styled("resolves to", "solid", "navy", "2", "5", "2"))
    else if src == DnsZones && tgt == VirtualMachines then Some(Styled("serves API for", "dashed", "navy", "2", "4", "2"))
    else None
  }

  /** The label of a derived dependency: with its description in parentheses when it has one. */
  function DerivedLabel(prefix: string, d: Option<string>): string {
    if d.Some? && d.value != "" then prefix + " (" + d.value + ")" else prefix
  }

  /** The classifier: a fixed style per listed type pair, the storage pair by dependency kind, else the fallback. */
  function Classify(src: string, tgt: string, kind: DependencyType, description: Option<string>): EdgeStyle {
    if src == VirtualMachines && tgt == StorageAccounts then
      if kind == Derived then Styled(DerivedLabel("derived storage", description), "dotted", "orange", "2", "3", "1")
      else Styled("stores data", "dashed", "brown", "2", "4", "1")
    else match FixedRule(src, tgt)
      case Some(style) => style
      case None =>
        if kind == Derived then EdgeStyle(DerivedLabel("derived", description), [("style", "dotted"), ("color", "orange"), ("penwidth", "1")])
        else EdgeStyle("depends on", [("style", "dashed"), ("color", "red")])
  }

  /** Only the storage pair and unlisted pairs look at the dependency's kind and description. */
  lemma ListedPairIgnoresKind(src: string, tgt: string, k1: DependencyType, d1: Option<string>, k2: DependencyType, d2: Option<string>)
    requires FixedRule(src, tgt).Some?
    ensures Classify(src, tgt, k1, d1) == Classify(src, tgt, k2, d2)
  {
  }

  /** Unlisted pairs: "derived", with the description when present, or dashed red "depends on". */
  lemma UnlistedPair(src: string, tgt: string, kind: DependencyType, description: Option<string>)
    requires FixedRule(src, tgt).None? && !(src == VirtualMachines && tgt == StorageAccounts)
    ensures var s := Classify(src, tgt, kind, description);
      && (kind == Derived && (description.None? || description.value == "") ==> s.caption == "derived")
      && (kind == Derived && description.Some? && description.value != "" ==> s.caption == "derived (" + description.value + ")")
      && (kind == Explicit ==> s.caption == "depends on" && s.attributes == [("style", "dashed"), ("color", "red")])
  {
  }

  /** The edge of one dependency, when a resource of that name is present. */
  function DependencyEdgeOf(r: Resource, d: Dependency, rs: seq<Resource>): (e: Option<GraphEdge>)
    ensures e.Some? <==> Get(NameIndex(rs), d.targetName).Some?
    ensures e.Some? ==> && Get(NameIndex(rs), d.targetName).Some?
                        && e.value.source == NodeId(r)
                        && e.value.target == NodeId(Get(NameIndex(rs), d.targetName).value)
                        && e.value.edgeType == KindName(DependencyKind)
  {
    match Get(NameIndex(rs), d.targetName)
    case None => None
    case Some(t) =>
      NameIndexSound(rs, d.targetName);
      var style := Classify(r.resourceType, t.resourceType, d.kind, d.description);
      Some(GraphEdge(NodeId(r), NodeIdOf(t.category, d.targetName, t.resourceType), style.caption, KindName(DependencyKind), style.attributes))
  }

  /** The dependency edges of one resource, in dependency order. */
  function DependencyEdgesOf(r: Resource, deps: seq<Dependency>, rs: seq<Resource>): (edges: seq<GraphEdge>)
    ensures |edges| <= |deps|
    ensures forall e :: e in edges ==> e.source == NodeId(r) && e.edgeType == KindName(DependencyKind)
    ensures forall e :: e in edges <==> exists d :: d in deps && DependencyEdgeOf(r, d, rs) == Some(e)
  {
    if deps == [] then []
    else
      var here := OptionList(DependencyEdgeOf(r, deps[0], rs));
      var rest := DependencyEdgesOf(r, deps[1..], rs);
      assert forall d :: d in deps <==> d == deps[0] || d in deps[1..];
      assert forall e :: e in here + rest <==> e in here || e in rest;
      here + rest
  }

  /** The dependency loop of `_create_dependency_edges`, resource by resource. */
  function DependencyEdges(owners: seq<Resource>, rs: seq<Resource>): (edges: seq<GraphEdge>)
    ensures forall e :: e in edges ==> e.edgeType == KindName(DependencyKind) && exists r :: r in owners && e.source == NodeId(r)
    ensures forall e :: e in edges <==>
      exists r, d :: r in owners && d in r.dependencies && DependencyEdgeOf(r, d, rs) == Some(e)
  {
    if owners == [] then []
    else
      var here := DependencyEdgesOf(owners[0], owners[0].dependencies, rs);
      var rest := DependencyEdges(owners[1..], rs);
      assert forall r :: r in owners <==> r == owners[0] || r in owners[1..];
      assert forall e :: e in here + rest <==> e in here || e in rest;
      here + rest
  }

  /** A dependency on a name no resource has yields no edge. */
  lemma MissingTargetNoEdge(r: Resource, d: Dependency, rs: seq<Resource>)
    requires forall x :: x in rs ==> x.name != d.targetName
    ensures DependencyEdgeOf(r, d, rs) == None
  {
    NameIndexSound(rs, d.targetName);
  }

  /** A dependency yields an edge exactly when some resource carries the target name. */
  lemma DependencyEdgeIffNamed(r: Resource, d: Dependency, rs: seq<Resource>)
    ensures DependencyEdgeOf(r, d, rs).Some? <==> exists x :: x in rs && x.name == d.targetName
  {
    NameIndexSound(rs, d.targetName);
  }

  /** A dependency's edge points at the last resource with the target name. */
  lemma DependencyTargetIsLastNamed(r: Resource, d: Dependency, rs: seq<Resource>)
    requires DependencyEdgeOf(r, d, rs).Some?
    ensures Filter(rs, NamedFn(d.targetName)) != []
    ensures DependencyEdgeOf(r, d, rs).value.target == NodeId(Last(Filter(rs, NamedFn(d.targetName))))
  {
    NameIndexLastWins(rs, d.targetName);
  }

  // ------------------------------------------------------------ DNS zones

  predicate IsDnsZone(r: Resource) {
    r.resourceType == DnsZones
  }

  /** The types a DNS zone may serve. */
  const DnsServedTypes: seq<string> := [VirtualNetworks, VirtualMachines, LoadBalancers, OpenShiftClusters, ManagedClusters]

  /** What `for domain in v` visits: a list's items, a string's characters, a dict's keys; None where Python cannot iterate. */
  function DomainItems(v: Value): Option<seq<Value>> {
    match v
    case VList(items) => Some(items)
    case VStr(s) => Some(Map(s, (c: char) => VStr([c])))
    case VDict(entries) => Some(Map(Keys(entries), (k: string) => VStr(k)))
    case _ => None
  }

  /** `parent in item`: a substring for text, an element for a list, a key for a dict; None where Python raises. */
  function ContainsDomain(item: Value, parent: string): Option<bool> {
    match item
    case VStr(s) => Some(Contains(s, parent))
    case VList(xs) => Some(VStr(parent) in xs)
    case VDict(entries) => Some(parent in Keys(entries))
    case _ => None
  }

  /** The loop over the domains: true at the first one containing the parent, false when none does, None when a test raises first. */
  function ScanDomains(items: seq<Value>, parent: string): Option<bool> {
    if items == [] then Some(false)
    else
      match ContainsDomain(items[0], parent)
      case None => None
      case Some(found) => if found then Some(true) else ScanDomains(items[1..], parent)
  }

  /** The loop finds the parent exactly when some domain contains it and every earlier test ran cleanly and failed. */
  lemma {:induction false} ScanDomainsFinds(items: seq<Value>, parent: string)
    ensures ScanDomains(items, parent) == Some(true) <==>
      exists i :: 0 <= i < |items| && ContainsDomain(items[i], parent) == Some(true)
        && forall j :: 0 <= j < i ==> ContainsDomain(items[j], parent) == Some(false)
    ensures ScanDomains(items, parent) == Some(false) <==>
      forall i :: 0 <= i < |items| ==> ContainsDomain(items[i], parent) == Some(false)
  {
    if items != [] {
      ScanDomainsFinds(items[1..], parent);
      assert forall i :: 1 <= i < |items| ==> items[i] == items[1..][i - 1];
      if ContainsDomain(items[0], parent) == Some(false) {
        if ScanDomains(items, parent) == Some(true) {
          var k :| 0 <= k < |items[1..]| && ContainsDomain(items[1..][k], parent) == Some(true)
            && forall j :: 0 <= j < k ==> ContainsDomain(items[1..][j], parent) == Some(false);
          assert forall j :: 0 <= j < k + 1 ==> ContainsDomain(items[j], parent) == Some(false) by {
            forall j | 0 <= j < k + 1 ensures ContainsDomain(items[j], parent) == Some(false) {
              if j > 0 { assert items[j] == items[1..][j - 1]; }
            }
          }
        }
        if exists i :: 0 <= i < |items| && ContainsDomain(items[i], parent) == Some(true)
             && forall j :: 0 <= j < i ==> ContainsDomain(items[j], parent) == Some(false) {
          var i :| 0 <= i < |items| && ContainsDomain(items[i], parent) == Some(true)
             && forall j :: 0 <= j < i ==> ContainsDomain(items[j], parent) == Some(false);
          assert i > 0;
          assert ContainsDomain(items[1..][i - 1], parent) == Some(true);
          assert forall j :: 0 <= j < i - 1 ==> ContainsDomain(items[1..][j], parent) == Some(false) by {
            forall j | 0 <= j < i - 1 ensures ContainsDomain(items[1..][j], parent) == Some(false) {
              assert items[1..][j] == items[j + 1];
            }
          }
        }
      }
    }
  }

  /**
   * The domain check of an OpenShift cluster: None when Python raises a
   * TypeError (the value or an item tested before a match cannot be
   * searched); with an empty parent the per-domain test short-circuits.
   */
  function DomainScan(v: Value, parent: string): Option<bool> {
    match DomainItems(v)
    case None => None
    case Some(items) => if parent == "" then Some(false) else ScanDomains(items, parent)
  }

  /** The zone name without its first '.' part. */
  function ParentDomain(zoneName: string): string {
    Join(Split(zoneName, '.')[1..], ".")
  }

  /** The naming heuristic for resources other than OpenShift clusters with DNS domains. */
  predicate NamePatternMatch(zoneName: string, resourceName: string) {
    var zone := Lower(zoneName);
    var name := Lower(resourceName);
    || Contains(name, Lower(Split(zoneName, '.')[0]))
    || (Contains(zone, "hypershift") && Contains(name, "hypershift"))
    || (Contains(zone, "mgmt") && Contains(name, "mgmt"))
    || exists part :: part in Words(ReplaceChar(zone, '.', ' ')) && |part| >= 4 && IsAlnumString(part) && Contains(name, part)
  }

  /** How a zone matches a resource: None, Some(true) for a naming match, Some(false) for a configured domain. */
  function ZoneMatch(zone: Resource, r: Resource): (m: Option<bool>)
    ensures m == Some(false) <==> && r.resourceType == OpenShiftClusters
                                  && "openshift_dns_domains" in Keys(r.properties)
                                  && DomainScan(Get(r.properties, "openshift_dns_domains").value, ParentDomain(zone.name)) == Some(true)
    ensures m == Some(true) <==> && !(r.resourceType == OpenShiftClusters && "openshift_dns_domains" in Keys(r.properties))
                                 && NamePatternMatch(zone.name, r.name)
  {
    if r.resourceType == OpenShiftClusters && "openshift_dns_domains" in Keys(r.properties) then
      if DomainScan(Get(r.properties, "openshift_dns_domains").value, ParentDomain(zone.name)) == Some(true)
      then Some(false) else None
    else if NamePatternMatch(zone.name, r.name) then Some(true)
    else None
  }

  /** The domain check raises a TypeError in the code; the model reports no match there. */
  predicate DomainCheckRaises(zone: Resource, r: Resource) {
    && r.resourceType == OpenShiftClusters
    && "openshift_dns_domains" in Keys(r.properties)
    && DomainScan(Get(r.properties, "openshift_dns_domains").value, ParentDomain(zone.name)).None?
  }

  /** A list of domain names is searched as substrings, and a matching name links the zone. */
  lemma DomainNamesMatch(zone: Resource, r: Resource, domains: seq<string>, i: nat)
    requires r.resourceType == OpenShiftClusters
    requires Get(r.properties, "openshift_dns_domains") == Some(VList(Map(domains, (d: string) => VStr(d))))
    requires ParentDomain(zone.name) != "" && i < |domains| && Contains(domains[i], ParentDomain(zone.name))
    ensures ZoneMatch(zone, r) == Some(false)
    ensures !DomainCheckRaises(zone, r)
  {
    var parent := ParentDomain(zone.name);
    var items := Map(domains, (d: string) => VStr(d));
    var k := FirstContaining(domains, parent, i);
    assert ContainsDomain(items[k], parent) == Some(true);
    ScanDomainsFinds(items, parent);
  }

  /** The first domain name, at or before `i`, containing the parent. */
  function FirstContaining(domains: seq<string>, parent: string, i: nat): (k: nat)
    requires i < |domains| && Contains(domains[i], parent)
    ensures k <= i && Contains(domains[k], parent)
    ensures forall j :: 0 <= j < k ==> !Contains(domains[j], parent)
  {
    if Contains(domains[0], parent) then 0
    else 1 + FirstContaining(domains[1..], parent, i - 1)
  }

  /** The edge from a zone to one resource, when it serves it. */
  function ZoneEdge(zone: Resource, r: Resource): (e: Option<GraphEdge>)
    ensures e.Some? <==> r != zone && ZoneMatch(zone, r).Some? && r.resourceType in DnsServedTypes
    ensures e.Some? ==> && e.value.source == NodeId(zone) && e.value.target == NodeId(r)
                        && e.value.edgeType == KindName(DnsServiceKind)
  {
    if r != zone && r.resourceType in DnsServedTypes then
      match ZoneMatch(zone, r)
      case None => None
      case Some(derived) =>
        var style := if derived then Styled("provides DNS for (derived)", "dotted", "orange", "2", "2", "2")
                     else Styled("provides DNS for", "dashed", "darkgreen", "2", "2", "2");
        Some(GraphEdge(NodeId(zone), NodeId(r), style.caption, KindName(DnsServiceKind), style.attributes))
    else None
  }

  /** A naming match is labelled as derived; a configured domain is not. */
  lemma ZoneEdgeLabel(zone: Resource, r: Resource)
    requires ZoneEdge(zone, r).Some?
    ensures ZoneEdge(zone, r).value.labelText == (if ZoneMatch(zone, r) == Some(true) then "provides DNS for (derived)" else "provides DNS for")
  {
  }

  /** The edges of one zone, in resource order. */
  function ZoneEdges(zone: Resource, rs: seq<Resource>): (edges: seq<GraphEdge>)
    ensures forall e :: e in edges ==> e.source == NodeId(zone) && e.edgeType == KindName(DnsServiceKind)
    ensures forall e :: e in edges ==> exists r :: r in rs && r != zone && r.resourceType in DnsServedTypes && e.target == NodeId(r)
    ensures forall e :: e in edges <==> exists r :: r in rs && ZoneEdge(zone, r) == Some(e)
  {
    if rs == [] then []
    else
      var here := OptionList(ZoneEdge(zone, rs[0]));
      var rest := ZoneEdges(zone, rs[1..]);
      assert forall r :: r in rs <==> r == rs[0] || r in rs[1..];
      assert forall e :: e in here + rest <==> e in here || e in rest;
      here + rest
  }

  /** `_create_dns_zone_connections`: for each zone in resource order, its edges. */
  function DnsZoneEdges(zones: seq<Resource>, rs: seq<Resource>): (edges: seq<GraphEdge>)
    ensures forall e :: e in edges ==> e.edgeType == KindName(DnsServiceKind) && exists z :: z in zones && e.source == NodeId(z)
    ensures forall e :: e in edges <==> exists z, r :: z in zones && r in rs && ZoneEdge(z, r) == Some(e)
  {
    if zones == [] then []
    else
      var here := ZoneEdges(zones[0], rs);
      var rest := DnsZoneEdges(zones[1..], rs);
      assert forall z :: z in zones <==> z == zones[0] || z in zones[1..];
      assert forall e :: e in here + rest <==> e in here || e in rest;
      here + rest
  }

  /** A zone never serves itself. */
  lemma ZoneNeverServesItself(zone: Resource)
    ensures ZoneEdge(zone, zone).None?
  {
  }

  // ---------------------------------------------------------------- order

  /** The builder's edge list: association edges, then DNS-zone edges, then dependency edges. */
  function BuilderEdges(topology: NetworkTopology, resources: seq<Resource>): (edges: seq<GraphEdge>)
    ensures forall e :: e in edges ==> e.edgeType in {KindName(AssociationKind), KindName(DependencyKind), KindName(DnsServiceKind)}
  {
    AssociationEdges(topology.associations, resources)
      + DnsZoneEdges(Filter(resources, IsDnsZone), resources)
      + DependencyEdges(resources, resources)
  }
}
