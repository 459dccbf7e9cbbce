/**
 * The records, enumerations and small tables shared by the graph builder and
 * the DOT emitter: resources with their dependencies, graph nodes and edges,
 * themes, the resource ranking and the visualization settings.
 */
module Models {
  import opened Wrappers
  import opened Text
  import opened OMaps
  import opened Seqs

  // ---------------------------------------------------------------- enums

  datatype Theme = Light | Dark | Neon

  function ThemeValue(t: Theme): string {
    match t
    case Light => "light"
    case Dark => "dark"
    case Neon => "neon"
  }

  /** `Theme(s)`: the member whose value is `s`, if any. */
  function ParseTheme(s: string): (r: Option<Theme>)
    ensures r.Some? ==> ThemeValue(r.value) == s
    ensures r.None? ==> forall t: Theme :: ThemeValue(t) != s
  {
    if s == "light" then Some(Light)
    else if s == "dark" then Some(Dark)
    else if s == "neon" then Some(Neon)
    else None
  }

  /** The image formats of the exporter; HTML is used by the export entry point beside PNG and SVG. */
  datatype OutputFormat = Png | Svg | Html

  function FormatValue(f: OutputFormat): string {
    match f
    case Png => "png"
    case Svg => "svg"
    case Html => "html"
  }

  function ParseFormat(s: string): (r: Option<OutputFormat>)
    ensures r.Some? ==> FormatValue(r.value) == s
    ensures r.None? ==> forall f: OutputFormat :: FormatValue(f) != s
  {
    if s == "png" then Some(Png)
    else if s == "svg" then Some(Svg)
    else if s == "html" then Some(Html)
    else None
  }

  datatype LabelVerbosity = Minimal | Standard | Detailed

  /** The integer value of a verbosity level. */
  function Level(v: LabelVerbosity): int {
    match v
    case Minimal => 1
    case Standard => 2
    case Detailed => 3
  }

  /** Levels are ordered MINIMAL < STANDARD < DETAILED, so `value >= 2` means "standard or detailed". */
  lemma LevelOrder(v: LabelVerbosity)
    ensures 1 <= Level(v) <= 3
    ensures Level(v) >= 2 <==> v != Minimal
    ensures Level(v) >= 3 <==> v == Detailed
  {
  }

  datatype Direction = LeftToRight | TopToBottom

  function DirectionValue(d: Direction): string {
    match d
    case LeftToRight => "left-to-right"
    case TopToBottom => "top-to-bottom"
  }

  function ParseDirection(s: string): (r: Option<Direction>)
    ensures r.Some? ==> DirectionValue(r.value) == s
    ensures r.None? ==> forall d: Direction :: DirectionValue(d) != s
  {
    if s == "left-to-right" then Some(LeftToRight)
    else if s == "top-to-bottom" then Some(TopToBottom)
    else None
  }

  datatype Splines = Polyline | Curved | Ortho | Line | Spline

  function SplinesValue(s: Splines): string {
    match s
    case Polyline => "polyline"
    case Curved => "curved"
    case Ortho => "ortho"
    case Line => "line"
    case Spline => "spline"
  }

  datatype DependencyType = Explicit | Derived

  function DependencyTypeValue(d: DependencyType): string {
    match d
    case Explicit => "explicit"
    case Derived => "derived"
  }

  // ------------------------------------------------------ property values

  /**
   * A value of a resource's property bag. Floating-point numbers are not
   * represented.
   */
  datatype Value =
    | VStr(s: string)
    | VInt(i: int)
    | VBool(b: bool)
    | VNone
    | VList(items: seq<Value>)
    | VDict(entries: seq<(string, Value)>)

  /** `isinstance(v, (str, int, float, bool))`. */
  predicate IsScalar(v: Value) {
    v.VStr? || v.VInt? || v.VBool?
  }

  /** `isinstance(v, list) and all(isinstance(item, dict) for item in v)`. */
  predicate IsRecordList(v: Value) {
    v.VList? && forall i :: 0 <= i < |v.items| ==> v.items[i].VDict?
  }

  /** `str(v)` for the values that reach the DOT text. */
  function ValueText(v: Value): string {
    match v
    case VStr(s) => s
    case VInt(i) => IntToString(i)
    case VBool(b) => if b then "True" else "False"
    case VNone => "None"
    case VList(_) => "[...]"
    case VDict(_) => "{...}"
  }

  /** Python truthiness. */
  predicate Truthy(v: Value) {
    match v
    case VStr(s) => s != ""
    case VInt(i) => i != 0
    case VBool(b) => b
    case VNone => false
    case VList(items) => items != []
    case VDict(entries) => entries != []
  }

  // ------------------------------------------------------------ resources

  /**
   * A dependency of one resource on another, by the target's name. A legacy
   * plain-string dependency is the explicit dependency without description.
   */
  datatype Dependency = Dependency(targetName: string, kind: DependencyType, description: Option<string>)

  /** A description counts only when it is a non-empty string. */
  predicate HasDescription(d: Dependency) {
    d.description.Some? && d.description.value != ""
  }

  datatype Resource = Resource(
    name: string,
    resourceType: string,
    category: string,
    location: string,
    resourceGroup: string,
    subscriptionId: string,
    properties: OMap<string, Value>,
    tags: OMap<string, string>,
    dependencies: seq<Dependency>)

  /** The target names of a resource's dependencies, in order. */
  function DependencyNames(r: Resource): (names: seq<string>)
    ensures |names| == |r.dependencies|
    ensures forall i :: 0 <= i < |names| ==> names[i] == r.dependencies[i].targetName
  {
    seq(|r.dependencies|, i requires 0 <= i < |r.dependencies| => r.dependencies[i].targetName)
  }

  /** `add_dependency`: appends one dependency record. */
  function AddDependency(r: Resource, target: string, kind: DependencyType, description: Option<string>): (r': Resource)
    ensures |r'.dependencies| == |r.dependencies| + 1
    ensures r'.dependencies[..|r.dependencies|] == r.dependencies
    ensures Last(r'.dependencies) == Dependency(target, kind, description)
    ensures target in DependencyNames(r')
    ensures r'.name == r.name && r'.resourceType == r.resourceType && r'.properties == r.properties
  {
    var r' := r.(dependencies := r.dependencies + [Dependency(target, kind, description)]);
    assert DependencyNames(r')[|r.dependencies|] == target;
    r'
  }

  // ----------------------------------------------------- network topology

  /** An association as the topology parser flattens it: from the owning resource's id to another id. */
  datatype Association = Association(sourceId: string, targetId: string, associationType: string, name: string)

  /** An association as the topology service reports it on its owning resource. */
  datatype AssociationLink = AssociationLink(resourceId: string, associationType: string, name: string)

  /** A topology resource as stored in one of the buckets. */
  datatype TopologyEntry = TopologyEntry(id: string, name: string, entryType: string, location: string, links: seq<AssociationLink>)

  datatype NetworkTopology = NetworkTopology(
    virtualNetworks: seq<TopologyEntry>,
    subnets: seq<TopologyEntry>,
    networkInterfaces: seq<TopologyEntry>,
    publicIps: seq<TopologyEntry>,
    loadBalancers: seq<TopologyEntry>,
    networkSecurityGroups: seq<TopologyEntry>,
    associations: seq<Association>)

  const EmptyTopology: NetworkTopology := NetworkTopology([], [], [], [], [], [], [])

  // ------------------------------------------------------- graph records

  datatype GraphNode = GraphNode(
    id: string,
    name: string,
    labelText: string,
    category: string,
    resourceType: string,
    attributes: OMap<string, Value>)

  datatype EdgeKind = AssociationKind | DependencyKind | DnsServiceKind

  /** The `edge_type` string stored on an edge. */
  function KindName(k: EdgeKind): string {
    match k
    case AssociationKind => "association"
    case DependencyKind => "dependency"
    case DnsServiceKind => "dns_service"
  }

  lemma KindNamesDistinct(a: EdgeKind, b: EdgeKind)
    ensures KindName(a) == KindName(b) <==> a == b
  {
  }

  datatype GraphEdge = GraphEdge(
    source: string,
    target: string,
    labelText: string,
    edgeType: string,
    attributes: OMap<string, string>)

  /** `GraphEdge(source, target)` with every defaulted field left out. */
  function DefaultEdge(source: string, target: string): (e: GraphEdge)
    ensures e.source == source && e.target == target
    ensures e.labelText == "" && e.edgeType == KindName(AssociationKind) && e.attributes == []
  {
    GraphEdge(source, target, "", "association", [])
  }

  // --------------------------------------------------------------- themes

  datatype ThemeConfig = ThemeConfig(
    backgroundColor: string,
    nodeColor: string,
    edgeColor: string,
    fontColor: string,
    fontName: string,
    fontSize: string)

  /** The emitter's theme table; the font is Arial at size 10 in every theme. */
  function ThemeOf(t: Theme): ThemeConfig {
    match t
    case Light => ThemeConfig("white", "lightblue", "black", "black", "Arial", "10")
    case Dark => ThemeConfig("black", "darkgray", "white", "black", "Arial", "10")
    case Neon => ThemeConfig("black", "cyan", "magenta", "yellow", "Arial", "10")
  }

  // -------------------------------------------------------------- ranking

  /** The ranking table, keyed by lower-case resource type. */
  const Rankings: seq<(string, int)> := [
    ("microsoft.network/publicipaddresses", 1),
    ("microsoft.network/loadbalancers", 2),
    ("microsoft.network/virtualnetworks", 3),
    ("microsoft.network/networksecuritygroups", 4),
    ("microsoft.network/networkinterfaces", 5),
    ("microsoft.compute/virtualmachines", 6)
  ]

  /** `ResourceRanking.get_rank`: the rank of the lower-cased type, 99 when unlisted. */
  function GetRank(resourceType: string): (r: int)
    ensures r in {1, 2, 3, 4, 5, 6, 99}
    ensures r == 99 <==> Lower(resourceType) !in Keys(Rankings)
    ensures r != 99 ==> (Lower(resourceType), r) in Rankings
  {
    Get(Rankings, Lower(resourceType)).GetOr(99)
  }

  /** The rank ignores case. */
  lemma GetRankIgnoresCase(t: string)
    ensures GetRank(t) == GetRank(Lower(t))
  {
    LowerIdempotent(t);
  }

  /** A listed type, in any case, gets its table rank. */
  lemma GetRankListed(t: string, i: nat)
    requires i < |Rankings| && Lower(t) == Rankings[i].0
    ensures GetRank(t) == Rankings[i].1
  {
  }

  // ------------------------------------------------------- configuration

  datatype VisualizationConfig = VisualizationConfig(
    resourceGroups: seq<string>,
    labelVerbosity: LabelVerbosity,
    categoryDepth: int,
    theme: Theme,
    outputFormat: OutputFormat,
    direction: Direction,
    splines: Splines,
    excludeTypes: set<string>,
    showLegends: bool,
    outputFile: Option<string>,
    computeOnly: bool,
    showPowerState: bool)

  /** The configuration with every defaulted field left out. */
  function DefaultConfig(resourceGroups: seq<string>): (c: VisualizationConfig)
    ensures c.resourceGroups == resourceGroups
    ensures Level(c.labelVerbosity) == 2 && c.categoryDepth == 2
    ensures ThemeValue(c.theme) == "light" && FormatValue(c.outputFormat) == "png"
    ensures DirectionValue(c.direction) == "left-to-right" && SplinesValue(c.splines) == "polyline"
    ensures c.excludeTypes == {} && c.showLegends && c.outputFile.None?
  {
    VisualizationConfig(resourceGroups, Standard, 2, Light, Png, LeftToRight, Polyline, {}, true, None, false, false)
  }
}
