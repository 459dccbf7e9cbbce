/**
 * Node creation in the graph builder: stable grouping of the filtered
 * resources, the choice between one grouped node and one node per resource,
 * the node records themselves and the verbosity-dependent label.
 */
module NodeSynthesis {
  import opened Wrappers
  import opened Text
  import opened OMaps
  import opened Seqs
  import opened Models
  import opened NodeIds

  // ------------------------------------------------------------- grouping

  /** The grouping key: the category at depth 1, the full type otherwise. */
  function GroupKey(depth: int, r: Resource): string {
    if depth == 1 then r.category else r.resourceType
  }

  function KeyFn(depth: int): Resource -> string {
    r => GroupKey(depth, r)
  }

  /** `_group_resources`: a `defaultdict(list)` filled in input order. */
  function GroupResources(resources: seq<Resource>, depth: int): (groups: seq<(string, seq<Resource>)>)
    ensures GroupedBy(groups, resources, KeyFn(depth))
    ensures multiset(Flatten(groups)) == multiset(resources)
    ensures forall i :: 0 <= i < |groups| ==> groups[i].1 != []
  {
    GroupByGrouped(resources, KeyFn(depth));
    GroupByPermutation(resources, KeyFn(depth));
    GroupsNonEmpty(GroupBy(resources, KeyFn(depth)), resources, KeyFn(depth));
    GroupBy(resources, KeyFn(depth))
  }

  // --------------------------------------------------------------- labels

  /** A resource type with its own label wording. */
  datatype SpecialLabel = SpecialLabel(caption: string, detail: string, lastSegmentOnly: bool, versionPrefix: bool)

  /** The specially labelled types, by lower-case type. */
  function SpecialLabelOf(lowerType: string): Option<SpecialLabel> {
    if lowerType == "microsoft.compute/sshpublickeys" then
      Some(SpecialLabel("SSH Public Key", "Authentication Credential", false, false))
    else if lowerType == "microsoft.compute/galleries" then
      Some(SpecialLabel("Compute Gallery", "Image Repository", false, false))
    else if lowerType == "microsoft.compute/galleries/images" then
      Some(SpecialLabel("Gallery Image", "Image Definition", true, false))
    else if lowerType == "microsoft.compute/galleries/images/versions" then
      Some(SpecialLabel("Image Version", "Versioned Image", true, true))
    else if lowerType == "microsoft.managedidentity/userassignedidentities" then
      Some(SpecialLabel("Managed Identity", "Authentication Service", false, false))
    else if lowerType == "microsoft.network/privatednszones" then
      Some(SpecialLabel("Private DNS Zone", "Internal DNS Resolution", false, false))
    else if lowerType == "microsoft.network/privatednszones/virtualnetworklinks" then
      Some(SpecialLabel("VNet Link", "DNS-VNet Connection", true, false))
    else None
  }

  /** The label's line break: a backslash and an `n`, which Graphviz renders as a new line. */
  const Br: string := "\\n"

  /** `_build_node_label`. */
  function BuildNodeLabel(v: LabelVerbosity, name: string, resourceNames: seq<string>, category: string, resourceType: string): (text: string)
    ensures v == Minimal ==> text == name || text == LastSegment(name, '/')
    ensures v == Minimal && '/' !in name ==> text == name
    ensures v == Standard ==> EndsWith(text, ")")
  {
    match SpecialLabelOf(Lower(resourceType))
    case Some(sp) =>
      var shown := if sp.lastSegmentOnly then LastSegment(name, '/') else name;
      assert '/' !in name ==> LastSegment(name, '/') == name by {
        if '/' !in name {
          LastSegmentNoSeparator(name, '/');
        }
      }
      if v == Minimal then shown
      else
        var head := (if sp.versionPrefix then "v" else "") + shown;
        var standard := head + Br + "(" + sp.caption + ")";
        if v == Standard then standard else standard + Br + sp.detail
    case None =>
      var standard := name + Br + "(" + category + ")";
      if v == Minimal then name
      else if v == Standard || |resourceNames| <= 1 then standard
      else standard + Br + NatToString(|resourceNames|) + " resources"
  }

  /** A type without special wording gets the name, then the category, at standard verbosity. */
  lemma GenericLabel(name: string, resourceNames: seq<string>, category: string, resourceType: string)
    requires SpecialLabelOf(Lower(resourceType)).None?
    ensures BuildNodeLabel(Minimal, name, resourceNames, category, resourceType) == name
    ensures BuildNodeLabel(Standard, name, resourceNames, category, resourceType) == name + "\\n(" + category + ")"
  {
  }

  /** Detailed verbosity only ever appends to the standard label. */
  lemma DetailedExtendsStandard(name: string, resourceNames: seq<string>, category: string, resourceType: string)
    ensures StartsWith(BuildNodeLabel(Detailed, name, resourceNames, category, resourceType),
                       BuildNodeLabel(Standard, name, resourceNames, category, resourceType))
  {
  }

  /** For a type without special wording, the detailed label adds a count exactly when several names are given. */
  lemma DetailedCountsSeveral(name: string, resourceNames: seq<string>, category: string, resourceType: string)
    requires SpecialLabelOf(Lower(resourceType)).None?
    ensures BuildNodeLabel(Detailed, name, resourceNames, category, resourceType)
         != BuildNodeLabel(Standard, name, resourceNames, category, resourceType)
        <==> |resourceNames| > 1
  {
    var standard := name + Br + "(" + category + ")";
    if |resourceNames| > 1 {
      assert |standard + Br + NatToString(|resourceNames|) + " resources"| > |standard|;
    }
  }

  /** For a type without special wording and several names, the detailed label ends with their count. */
  lemma DetailedCountSuffix(name: string, resourceNames: seq<string>, category: string, resourceType: string)
    requires SpecialLabelOf(Lower(resourceType)).None? && |resourceNames| > 1
    ensures EndsWith(BuildNodeLabel(Detailed, name, resourceNames, category, resourceType),
                     NatToString(|resourceNames|) + " resources")
  {
    var standard := name + Br + "(" + category + ")";
    var tail := NatToString(|resourceNames|) + " resources";
    assert standard + Br + NatToString(|resourceNames|) + " resources" == (standard + Br) + tail;
  }

  /** Gallery images, image versions and VNet links are shown by the last '/' segment of their name. */
  lemma MinimalLabelLastSegment(name: string, resourceType: string)
    requires Lower(resourceType) in {"microsoft.compute/galleries/images", "microsoft.compute/galleries/images/versions",
                                     "microsoft.network/privatednszones/virtualnetworklinks"}
    ensures BuildNodeLabel(Minimal, name, [name], "", resourceType) == LastSegment(name, '/')
  {
  }

  // ---------------------------------------------------------------- nodes

  const VirtualMachineType: string := "Microsoft.Compute/virtualMachines"

  /** A property value simple enough to pass to the emitter: a scalar, or a list of records. */
  predicate IsSafeValue(v: Value) {
    IsScalar(v) || IsRecordList(v)
  }

  /** The safe properties, in their original order. */
  function SafeProperties(props: OMap<string, Value>): OMap<string, Value> {
    Filter(props, SafeEntry)
  }

  predicate SafeEntry(e: (string, Value)) {
    IsSafeValue(e.1)
  }

  /** The safe properties are exactly the safe entries, in their original order. */
  lemma SafePropertiesSelect(props: OMap<string, Value>)
    ensures forall e :: e in SafeProperties(props) <==> e in props && IsSafeValue(e.1)
    ensures IsSubseq(SafeProperties(props), props)
  {
    FilterMembers(props, SafeEntry);
    FilterIsSubseq(props, SafeEntry);
    forall e ensures e in SafeProperties(props) <==> e in props && IsSafeValue(e.1) {
      assert SafeEntry(e) <==> IsSafeValue(e.1);
    }
  }

  /** The attribute names every resource node carries, in order. */
  const BaseAttributeKeys: seq<string> := ["resource_group", "location", "ranking", "shape", "style"]

  /** The attributes every resource node carries. */
  function BaseAttributes(r: Resource): (base: OMap<string, Value>)
    ensures Keys(base) == BaseAttributeKeys
    ensures Get(base, "resource_group") == Some(VStr(r.resourceGroup))
    ensures Get(base, "ranking") == Some(VInt(GetRank(r.resourceType)))
  {
    [("resource_group", VStr(r.resourceGroup)),
     ("location", VStr(r.location)),
     ("ranking", VInt(GetRank(r.resourceType))),
     ("shape", VStr("box")),
     ("style", VStr("filled"))]
  }

  predicate HasPowerState(r: Resource) {
    r.resourceType == VirtualMachineType && "power_state" in Keys(r.properties)
  }

  /** The optional attributes: a VM's power state, then the safe properties. */
  function ExtraAttributes(r: Resource): (extra: OMap<string, Value>)
    ensures Keys(extra) == (if HasPowerState(r) then ["power_state"] else [])
                           + (if r.properties != [] then ["properties"] else [])
    ensures HasPowerState(r) ==> Get(extra, "power_state") == Get(r.properties, "power_state")
    ensures r.properties != [] ==> Get(extra, "properties") == Some(VDict(SafeProperties(r.properties)))
  {
    var power := if HasPowerState(r) then [("power_state", Get(r.properties, "power_state").value)] else [];
    var props := if r.properties != [] then [("properties", VDict(SafeProperties(r.properties)))] else [];
    KeysConcat(power, props);
    power + props
  }

  lemma BaseKeysDistinct(k: string)
    requires k in BaseAttributeKeys
    ensures k != "power_state" && k != "properties"
  {
    assert |k| != 11 && |k| != 10;
  }

  /** The attributes of a resource node. */
  function ResourceAttributes(r: Resource): (attrs: OMap<string, Value>)
    ensures Get(attrs, "resource_group") == Some(VStr(r.resourceGroup))
    ensures Get(attrs, "ranking") == Some(VInt(GetRank(r.resourceType)))
    ensures "power_state" in Keys(attrs) <==> r.resourceType == VirtualMachineType && "power_state" in Keys(r.properties)
    ensures "properties" in Keys(attrs) <==> r.properties != []
    ensures "power_state" in Keys(attrs) ==> Get(attrs, "power_state") == Get(r.properties, "power_state")
    ensures r.properties != [] ==> Get(attrs, "properties") == Some(VDict(SafeProperties(r.properties)))
  {
    var base := BaseAttributes(r);
    var extra := ExtraAttributes(r);
    GetAppend(base, extra, "resource_group");
    GetAppend(base, extra, "ranking");
    GetAppend(base, extra, "power_state");
    GetAppend(base, extra, "properties");
    KeysConcat(base, extra);
    assert "power_state" !in BaseAttributeKeys by {
      if "power_state" in BaseAttributeKeys {
        BaseKeysDistinct("power_state");
      }
    }
    assert "properties" !in BaseAttributeKeys by {
      if "properties" in BaseAttributeKeys {
        BaseKeysDistinct("properties");
      }
    }
    base + extra
  }

  /** `_create_resource_node`. */
  function ResourceNode(r: Resource, v: LabelVerbosity): (n: GraphNode)
    ensures n.id == NodeId(r) && n.name == r.name && n.category == r.category && n.resourceType == r.resourceType
    ensures n.labelText == BuildNodeLabel(v, r.name, [r.name], r.category, r.resourceType)
    ensures n.attributes == ResourceAttributes(r)
  {
    GraphNode(NodeId(r), r.name, BuildNodeLabel(v, r.name, [r.name], r.category, r.resourceType),
              r.category, r.resourceType, ResourceAttributes(r))
  }

  /** The id of a grouped node: `group_` and the lower-cased key with '.' and '/' made '_'. */
  function GroupNodeId(groupKey: string): (id: string)
    ensures StartsWith(id, "group_") && |id| == |groupKey| + 6
    ensures '.' !in id[6..] && '/' !in id[6..]
  {
    "group_" + ReplaceChar(ReplaceChar(Lower(groupKey), '.', '_'), '/', '_')
  }

  /** `_create_group_node`, called with at least one resource. */
  function GroupNode(groupKey: string, rs: seq<Resource>, v: LabelVerbosity): (n: GraphNode)
    requires rs != []
    ensures n.id == GroupNodeId(groupKey) && n.name == groupKey && n.resourceType == groupKey
    ensures n.category == rs[0].category
    ensures Get(n.attributes, "resource_count") == Some(VInt(|rs|))
    ensures v == Detailed && |rs| > 1 && SpecialLabelOf(Lower(groupKey)).None?
        ==> EndsWith(n.labelText, NatToString(|rs|) + " resources")
  {
    var names := Map(rs, (x: Resource) => x.name);
    var attrs := [
      ("resource_count", VInt(|rs|)),
      ("resources", VList(Map(names, (s: string) => VStr(s)))),
      ("shape", VStr("box")),
      ("style", VStr("filled"))];
    assert v == Detailed && |rs| > 1 && SpecialLabelOf(Lower(groupKey)).None?
        ==> EndsWith(BuildNodeLabel(v, groupKey, names, rs[0].category, groupKey), NatToString(|rs|) + " resources") by {
      if v == Detailed && |rs| > 1 && SpecialLabelOf(Lower(groupKey)).None? {
        DetailedCountSuffix(groupKey, names, rs[0].category, groupKey);
      }
    }
    GraphNode(GroupNodeId(groupKey), groupKey, BuildNodeLabel(v, groupKey, names, rs[0].category, groupKey),
              rs[0].category, groupKey, attrs)
  }

  /** The nodes one group contributes. */
  function GroupNodes(g: (string, seq<Resource>), config: VisualizationConfig): seq<GraphNode> {
    if config.categoryDepth == 1 && |g.1| > 1 then [GroupNode(g.0, g.1, config.labelVerbosity)]
    else Map(g.1, (r: Resource) => ResourceNode(r, config.labelVerbosity))
  }

  function GroupNodesFn(config: VisualizationConfig): ((string, seq<Resource>)) -> seq<GraphNode> {
    g => GroupNodes(g, config)
  }

  /** `_create_resource_nodes` over the groups, in group order. */
  function CreateResourceNodes(groups: seq<(string, seq<Resource>)>, config: VisualizationConfig): seq<GraphNode> {
    ConcatMap(groups, GroupNodesFn(config))
  }

  /** The nodes built from a list of filtered resources. */
  function ResourceNodes(resources: seq<Resource>, config: VisualizationConfig): seq<GraphNode> {
    CreateResourceNodes(GroupResources(resources, config.categoryDepth), config)
  }

  function ResourceNodeFn(v: LabelVerbosity): Resource -> GraphNode {
    r => ResourceNode(r, v)
  }

  /** Below depth 1 every group contributes one resource node per member. */
  lemma {:induction false} NodesOfTypeGroups(groups: seq<(string, seq<Resource>)>, config: VisualizationConfig)
    requires config.categoryDepth != 1
    ensures CreateResourceNodes(groups, config) == Map(Flatten(groups), ResourceNodeFn(config.labelVerbosity))
  {
    if groups != [] {
      NodesOfTypeGroups(groups[1..], config);
      var f := ResourceNodeFn(config.labelVerbosity);
      MapConcat(groups[0].1, Flatten(groups[1..]), f);
      assert GroupNodes(groups[0], config) == Map(groups[0].1, f);
    }
  }

  /** Grouping by type never merges: one node per resource, each built from its resource. */
  lemma OneNodePerResource(resources: seq<Resource>, config: VisualizationConfig)
    requires config.categoryDepth != 1
    ensures |ResourceNodes(resources, config)| == |resources|
    ensures forall n :: n in ResourceNodes(resources, config) <==>
      exists r :: r in resources && n == ResourceNode(r, config.labelVerbosity)
  {
    var gs := GroupResources(resources, config.categoryDepth);
    var f := ResourceNodeFn(config.labelVerbosity);
    NodesOfTypeGroups(gs, config);
    var flat := Flatten(gs);
    SameMultiset(flat, resources);
    MapMembers(flat, f);
  }

  /** One node per group: the node count at depth 1 is the number of distinct keys. */
  lemma {:induction false} OneNodePerGroup(groups: seq<(string, seq<Resource>)>, config: VisualizationConfig)
    requires config.categoryDepth == 1
    requires forall i :: 0 <= i < |groups| ==> groups[i].1 != []
    ensures |CreateResourceNodes(groups, config)| == |groups|
  {
    if groups != [] {
      OneNodePerGroup(groups[1..], config);
    }
  }

  /** At depth 1 there is one node per distinct category. */
  lemma CategoryNodeCount(resources: seq<Resource>, config: VisualizationConfig)
    requires config.categoryDepth == 1
    ensures |ResourceNodes(resources, config)| == |Dedup(KeySeq(resources, KeyFn(1)))|
  {
    var gs := GroupResources(resources, 1);
    OneNodePerGroup(gs, config);
    assert |Keys(gs)| == |gs|;
  }
}
