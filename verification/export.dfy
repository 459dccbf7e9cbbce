/**
 * The orchestration of `export_diagram`: resource-group normalisation, the
 * per-group discovery combined into one resource list and one topology, the
 * refusal of an empty result, graph building and DOT generation, and the
 * output-file extension rule. Discovery and rendering are outside the model:
 * what discovery returns for each group is a parameter.
 */
module DiagramExport {
  import opened Wrappers
  import opened Text
  import opened OMaps
  import opened Seqs
  import opened Models
  import opened GraphAssembly
  import opened DotClusters
  import opened DotDocument

  // ------------------------------------------------------ resource groups

  /** The `resource_group` argument: one name, a list of names, or `None`. */
  datatype GroupArgument = OneGroup(name: string) | GroupList(names: seq<string>) | NoGroups

  /**
   * A single name becomes a one-element list and a non-empty list is kept;
   * otherwise every group of the subscription is used, and a subscription
   * without groups is an error.
   */
  function NormalizeResourceGroups(arg: GroupArgument, available: seq<string>): (r: Result<seq<string>>)
    ensures arg.OneGroup? ==> r == Ok([arg.name])
    ensures arg.GroupList? && arg.names != [] ==> r == Ok(arg.names)
    ensures arg.NoGroups? || arg == GroupList([]) ==> (r.Err? <==> available == []) && (r.Ok? ==> r.value == available)
  {
    match arg
    case OneGroup(name) => Ok([name])
    case GroupList(names) =>
      if names != [] then Ok(names)
      else if available == [] then Err("No resource groups found in subscription")
      else Ok(available)
    case NoGroups =>
      if available == [] then Err("No resource groups found in subscription") else Ok(available)
  }

  /** An accepted argument always names at least one group to scan. */
  lemma NormalizedNonEmpty(arg: GroupArgument, available: seq<string>)
    ensures NormalizeResourceGroups(arg, available).Ok? ==> NormalizeResourceGroups(arg, available).value != []
  { }

  // --------------------------------------------------------- Python repr

  /** The quote `repr` puts around a string: double quotes only when it holds a single quote and no double quote. */
  function ReprQuote(s: string): char {
    if '\'' in s && '"' !in s then '"' else '\''
  }

  /** How `repr` writes one character inside quotes `q`. */
  function EscapeReprChar(c: char, q: char): string {
    if c == '\\' then "\\\\"
    else if c == q then ['\\', q]
    else if c == '\n' then "\\n"
    else if c == '\r' then "\\r"
    else if c == '\t' then "\\t"
    else [c]
  }

  function EscapeRepr(s: string, q: char): string {
    if s == [] then [] else EscapeReprChar(s[0], q) + EscapeRepr(s[1..], q)
  }

  /** Reading a `repr` body back: a backslash takes the next character literally, or as a control character. */
  function UnescapeRepr(s: string): string {
    if s == [] then []
    else if s[0] == '\\' && |s| >= 2 then
      (if s[1] == 'n' then "\n" else if s[1] == 'r' then "\r" else if s[1] == 't' then "\t" else [s[1]])
        + UnescapeRepr(s[2..])
    else [s[0]] + UnescapeRepr(s[1..])
  }

  /** Unescaping reads one escaped character back and continues with the rest. */
  lemma UnescapeReprStep(c: char, q: char, rest: string)
    requires q == '\'' || q == '"'
    ensures UnescapeRepr(EscapeReprChar(c, q) + rest) == [c] + UnescapeRepr(rest)
  {
    var e := EscapeReprChar(c, q);
    if c == '\\' || c == q || c == '\n' || c == '\r' || c == '\t' {
      assert |e| == 2 && e[0] == '\\';
      assert (e + rest)[2..] == rest;
    } else {
      assert e == [c];
      assert (e + rest)[1..] == rest;
    }
  }

  /** Unescaping inverts `repr`'s escaping for either quote. */
  lemma {:induction false} UnescapeEscapeRepr(s: string, q: char)
    requires q == '\'' || q == '"'
    ensures UnescapeRepr(EscapeRepr(s, q)) == s
  {
    if s != [] {
      UnescapeEscapeRepr(s[1..], q);
      UnescapeReprStep(s[0], q, EscapeRepr(s[1..], q));
      assert s == [s[0]] + s[1..];
    }
  }

  /** `repr(s)` for a string of printable characters, tabs and line breaks. */
  function StrRepr(s: string): (r: string)
    ensures |r| >= 2 && r[0] == r[|r| - 1] == ReprQuote(s)
    ensures UnescapeRepr(r[1..|r| - 1]) == s
  {
    var q := ReprQuote(s);
    var r := [q] + EscapeRepr(s, q) + [q];
    assert r[1..|r| - 1] == EscapeRepr(s, q);
    UnescapeEscapeRepr(s, q);
    r
  }

  /** `repr` of a list of strings. */
  function ListRepr(items: seq<string>): string {
    "[" + Join(Map(items, StrRepr), ", ") + "]"
  }

  /** The refusal of a scan that found nothing names the groups as Python prints the list. */
  function NoResourcesMessage(groups: seq<string>): string {
    "No resources found in resource groups: " + ListRepr(groups)
  }

  /** Text free of quotes, backslashes and control characters is written as is. */
  lemma {:induction false} EscapeReprPlain(s: string, q: char)
    requires forall i :: 0 <= i < |s| ==> s[i] !in {'\\', q, '\n', '\r', '\t'}
    ensures EscapeRepr(s, q) == s
  {
    if s != [] {
      EscapeReprPlain(s[1..], q);
      assert s == [s[0]] + s[1..];
    }
  }

  /** No quote, backslash or control character that `repr` would escape. */
  predicate PlainText(s: string) {
    forall i :: 0 <= i < |s| ==> s[i] !in {'\\', '\'', '"', '\n', '\r', '\t'}
  }

  /** A plain string is shown between single quotes. */
  lemma StrReprPlain(s: string)
    requires PlainText(s)
    ensures StrRepr(s) == "'" + s + "'"
  {
    assert '\'' !in s;
    EscapeReprPlain(s, '\'');
  }

  /** A plain group name appears quoted in the refusal, as Python prints a one-element list. */
  lemma NoResourcesMessageOne(g: string)
    requires PlainText(g)
    ensures NoResourcesMessage([g]) == "No resources found in resource groups: ['" + g + "']"
  {
    StrReprPlain(g);
    var m := Map([g], StrRepr);
    assert m == [StrRepr(g)];
    assert Join(m, ", ") == "'" + g + "'";
  }

  // ------------------------------------------------------------ discovery

  /** What discovery returns for one group: its resources and its network topology. */
  datatype GroupScan = GroupScan(resources: seq<Resource>, topology: NetworkTopology)

  function AppendTopology(a: NetworkTopology, b: NetworkTopology): NetworkTopology {
    NetworkTopology(
      a.virtualNetworks + b.virtualNetworks,
      a.subnets + b.subnets,
      a.networkInterfaces + b.networkInterfaces,
      a.publicIps + b.publicIps,
      a.loadBalancers + b.loadBalancers,
      a.networkSecurityGroups + b.networkSecurityGroups,
      a.associations + b.associations)
  }

  lemma AppendTopologyMonoid(a: NetworkTopology, b: NetworkTopology, c: NetworkTopology)
    ensures AppendTopology(AppendTopology(a, b), c) == AppendTopology(a, AppendTopology(b, c))
    ensures AppendTopology(EmptyTopology, a) == a && AppendTopology(a, EmptyTopology) == a
  {
    assert a.virtualNetworks + [] == a.virtualNetworks;
    assert a.subnets + [] == a.subnets;
    assert a.networkInterfaces + [] == a.networkInterfaces;
    assert a.publicIps + [] == a.publicIps;
    assert a.loadBalancers + [] == a.loadBalancers;
    assert a.networkSecurityGroups + [] == a.networkSecurityGroups;
    assert a.associations + [] == a.associations;
  }

  /** Every group's resources, in group order. */
  function CombinedResources(scans: seq<GroupScan>): seq<Resource> {
    if scans == [] then [] else scans[0].resources + CombinedResources(scans[1..])
  }

  /** The topologies of the groups that have resources, list by list, in group order. */
  function CombinedTopology(scans: seq<GroupScan>): NetworkTopology {
    if scans == [] then EmptyTopology
    else if scans[0].resources == [] then CombinedTopology(scans[1..])
    else AppendTopology(scans[0].topology, CombinedTopology(scans[1..]))
  }

  /** Combining distributes over the group list, so each list is the per-group lists concatenated in order. */
  lemma {:induction false} CombinedTopologyAppend(xs: seq<GroupScan>, ys: seq<GroupScan>)
    ensures CombinedTopology(xs + ys) == AppendTopology(CombinedTopology(xs), CombinedTopology(ys))
  {
    if xs == [] {
      assert xs + ys == ys;
      AppendTopologyMonoid(CombinedTopology(ys), EmptyTopology, EmptyTopology);
    } else {
      CombinedTopologyAppend(xs[1..], ys);
      assert (xs + ys)[1..] == xs[1..] + ys;
      AppendTopologyMonoid(xs[0].topology, CombinedTopology(xs[1..]), CombinedTopology(ys));
    }
  }

  /** A group without resources contributes nothing, whatever topology discovery would report for it. */
  lemma EmptyGroupContributesNothing(xs: seq<GroupScan>, t: NetworkTopology, ys: seq<GroupScan>)
    ensures CombinedTopology(xs + [GroupScan([], t)] + ys) == CombinedTopology(xs + ys)
    ensures CombinedResources(xs + [GroupScan([], t)] + ys) == CombinedResources(xs + ys)
  {
    CombinedTopologyAppend(xs + [GroupScan([], t)], ys);
    CombinedTopologyAppend(xs, [GroupScan([], t)]);
    CombinedTopologyAppend(xs, ys);
    AppendTopologyMonoid(CombinedTopology(xs), EmptyTopology, EmptyTopology);
    CombinedResourcesAppend(xs + [GroupScan([], t)], ys);
    CombinedResourcesAppend(xs, [GroupScan([], t)]);
    CombinedResourcesAppend(xs, ys);
  }

  lemma {:induction false} CombinedResourcesAppend(xs: seq<GroupScan>, ys: seq<GroupScan>)
    ensures CombinedResources(xs + ys) == CombinedResources(xs) + CombinedResources(ys)
  {
    if xs == [] {
      assert xs + ys == ys;
    } else {
      CombinedResourcesAppend(xs[1..], ys);
      assert (xs + ys)[0] == xs[0] && (xs + ys)[1..] == xs[1..] + ys;
      ConcatAssoc(xs[0].resources, CombinedResources(xs[1..]), CombinedResources(ys));
    }
  }

  /** There are no resources at all exactly when every group is empty. */
  lemma {:induction false} CombinedResourcesEmpty(scans: seq<GroupScan>)
    ensures CombinedResources(scans) == [] <==> forall i :: 0 <= i < |scans| ==> scans[i].resources == []
  {
    if scans != [] {
      CombinedResourcesEmpty(scans[1..]);
      assert forall i :: 1 <= i < |scans| ==> scans[i] == scans[1..][i - 1];
    }
  }

  function ScanAll(groups: seq<string>, scan: string -> GroupScan): (scans: seq<GroupScan>)
    ensures |scans| == |groups|
    ensures forall i :: 0 <= i < |groups| ==> scans[i] == scan(groups[i])
  {
    if groups == [] then [] else [scan(groups[0])] + ScanAll(groups[1..], scan)
  }

  // ------------------------------------------------------- output file name

  /** `str.rfind(c)`: the position of the last occurrence. */
  function LastIndexOf(s: string, c: char): (r: Option<nat>)
    ensures r.None? ==> c !in s
    ensures r.Some? ==> r.value < |s| && s[r.value] == c && c !in s[r.value + 1..]
  {
    if s == [] then None
    else if s[|s| - 1] == c then Some(|s| - 1)
    else
      var r := LastIndexOf(s[..|s| - 1], c);
      assert s == s[..|s| - 1] + [s[|s| - 1]];
      r
  }

  lemma {:induction false} LastIndexOfAppend(s: string, e: string, c: char)
    requires c !in e
    ensures LastIndexOf(s + e, c) == LastIndexOf(s, c)
    decreases |e|
  {
    if e != [] {
      var e' := e[..|e| - 1];
      LastIndexOfAppend(s, e', c);
      assert (s + e)[..|s + e| - 1] == s + e';
    } else {
      assert s + e == s;
    }
  }

  /** `Path.name`: the text after the last '/'. */
  function PathName(path: string): string {
    var i := LastIndexOf(path, '/');
    if i.Some? then path[i.value + 1..] else path
  }

  /** `Path.suffix` of a name: from its last '.', unless that dot leads or ends the name. */
  function NameSuffix(name: string): string {
    var i := LastIndexOf(name, '.');
    if i.Some? && 0 < i.value < |name| - 1 then name[i.value..] else ""
  }

  function PathSuffix(path: string): string {
    NameSuffix(PathName(path))
  }

  function PathStem(path: string): string {
    var name := PathName(path);
    var suffix := PathSuffix(path);
    name[..|name| - |suffix|]
  }

  /** The extension each output format expects. */
  function Extension(format: OutputFormat): (ext: string)
    ensures |ext| >= 2 && ext[0] == '.' && '.' !in ext[1..] && '/' !in ext
    ensures Lower(ext) == ext
  {
    match format
    case Png => ".png"
    case Svg => ".svg"
    case Html => ".html"
  }

  lemma PathNameAppend(path: string, ext: string)
    requires '/' !in ext
    ensures PathName(path + ext) == PathName(path) + ext
  {
    LastIndexOfAppend(path, ext, '/');
    var i := LastIndexOf(path, '/');
    if i.Some? {
      assert (path + ext)[i.value + 1..] == path[i.value + 1..] + ext;
    }
  }

  /** The dot that opens an appended extension is the last one. */
  lemma LastDotOfAppended(name: string, ext: string)
    requires |ext| >= 1 && ext[0] == '.' && '.' !in ext[1..]
    ensures LastIndexOf(name + ext, '.') == Some(|name|)
  {
    var dotted := name + ['.'];
    assert LastIndexOf(dotted, '.') == Some(|name|) by {
      assert dotted[|dotted| - 1] == '.';
    }
    assert name + ext == dotted + ext[1..] by {
      assert ext == ['.'] + ext[1..];
    }
    LastIndexOfAppend(dotted, ext[1..], '.');
  }

  lemma NameSuffixAppend(name: string, ext: string)
    requires name != ""
    requires |ext| >= 2 && ext[0] == '.' && '.' !in ext[1..]
    ensures NameSuffix(name + ext) == ext
  {
    LastDotOfAppended(name, ext);
    assert (name + ext)[|name|..] == ext;
  }

  /** Appending an extension to a non-empty name makes it the path's suffix. */
  lemma SuffixOfAppended(path: string, ext: string)
    requires PathName(path) != ""
    requires |ext| >= 2 && ext[0] == '.' && '.' !in ext[1..] && '/' !in ext
    ensures PathSuffix(path + ext) == ext
  {
    PathNameAppend(path, ext);
    NameSuffixAppend(PathName(path), ext);
  }

  /** The `with_suffix` refusal of a path without a name; `Path("")` is the current directory. */
  function EmptyNameMessage(file: string): string {
    "PosixPath(" + StrRepr(if file == "" then "." else file) + ") has an empty name"
  }

  /**
   * The output-extension rule: a file without a suffix gets the format's
   * extension, a suffix that matches it case-insensitively is kept, and
   * any other suffix is refused.
   */
  function ResolveOutputFile(file: string, format: OutputFormat): (r: Result<string>) {
    var expected := Extension(format);
    var actual := Lower(PathSuffix(file));
    if actual == "" then
      if PathName(file) == "" then Err(EmptyNameMessage(file)) else Ok(file + expected)
    else if actual != expected then
      Err("Output file extension '" + actual + "' does not match format '" + FormatValue(format)
          + "'. Expected extension: '" + expected + "'. Please use '" + PathStem(file) + expected
          + "' or change the format.")
    else Ok(file)
  }

  /**
   * An accepted file name always carries the format's extension, so
   * resolving it again keeps it; a file is refused exactly when it has
   * another suffix or no name.
   */
  lemma ResolvedHasExtension(file: string, format: OutputFormat)
    ensures var r := ResolveOutputFile(file, format);
      && (r.Ok? ==> Lower(PathSuffix(r.value)) == Extension(format) && ResolveOutputFile(r.value, format) == r)
      && (r.Err? <==> ((Lower(PathSuffix(file)) != "" && Lower(PathSuffix(file)) != Extension(format))
                       || (Lower(PathSuffix(file)) == "" && PathName(file) == "")))
  {
    var expected := Extension(format);
    if Lower(PathSuffix(file)) == "" && PathName(file) != "" {
      SuffixOfAppended(file, expected);
    }
  }

  /** A file whose suffix already matches, in any case, is kept as given. */
  lemma MatchingSuffixKept(file: string, format: OutputFormat)
    requires Lower(PathSuffix(file)) == Extension(format)
    ensures ResolveOutputFile(file, format) == Ok(file)
  { }

  // ---------------------------------------------------------------- export

  /** What the export settles besides the graph: the configuration, the combined discovery and the file. */
  datatype ExportPlan = ExportPlan(
    config: VisualizationConfig,
    resources: seq<Resource>,
    topology: NetworkTopology,
    file: string)

  /**
   * `export_diagram` without the graph: the groups are normalised and
   * scanned, an empty scan is refused, and the output file name is
   * resolved. The configuration is the caller's, with the groups and the
   * output file filled in. The code resolves the file only after building
   * the graph, generating the DOT text and optionally saving it; building
   * and generating cannot fail in the model, so resolving first gives the
   * same outcome.
   */
  function PlanExport(options: VisualizationConfig, arg: GroupArgument, available: seq<string>,
                      scan: string -> GroupScan, outputFile: string): (r: Result<ExportPlan>)
    ensures NormalizeResourceGroups(arg, available).Err? ==> r == Err(NormalizeResourceGroups(arg, available).message)
    ensures r.Ok? ==> && r.value.resources != []
                      && r.value.config.resourceGroups == NormalizeResourceGroups(arg, available).value
                      && r.value.config.(resourceGroups := options.resourceGroups, outputFile := options.outputFile) == options
                      && r.value.config.outputFile == Some(outputFile)
                      && Lower(PathSuffix(r.value.file)) == Extension(options.outputFormat)
    ensures r.Ok? ==> var scans := ScanAll(NormalizeResourceGroups(arg, available).value, scan);
                      && r.value.resources == CombinedResources(scans)
                      && r.value.topology == CombinedTopology(scans)
                      && ResolveOutputFile(outputFile, options.outputFormat) == Ok(r.value.file)
  {
    match NormalizeResourceGroups(arg, available)
    case Err(message) => Err(message)
    case Ok(groups) =>
      var scans := ScanAll(groups, scan);
      var resources := CombinedResources(scans);
      if resources == [] then Err(NoResourcesMessage(groups))
      else
        ResolvedHasExtension(outputFile, options.outputFormat);
        match ResolveOutputFile(outputFile, options.outputFormat)
        case Err(message) => Err(message)
        case Ok(file) =>
          var config := options.(resourceGroups := groups, outputFile := Some(outputFile));
          Ok(ExportPlan(config, resources, CombinedTopology(scans), file))
  }

  /**
   * The refusals: no resource in any group is an error, reported before
   * the output file name is looked at; otherwise a file the rule refuses
   * fails the export.
   */
  lemma PlanExportErrors(options: VisualizationConfig, arg: GroupArgument, available: seq<string>,
                         scan: string -> GroupScan, outputFile: string)
    requires NormalizeResourceGroups(arg, available).Ok?
    ensures var groups := NormalizeResourceGroups(arg, available).value;
      var r := PlanExport(options, arg, available, scan, outputFile);
      && ((forall g :: g in groups ==> scan(g).resources == []) ==> r == Err(NoResourcesMessage(groups)))
      && ((exists g :: g in groups && scan(g).resources != []) ==>
            (r.Err? <==> ResolveOutputFile(outputFile, options.outputFormat).Err?))
  {
    var groups := NormalizeResourceGroups(arg, available).value;
    var scans := ScanAll(groups, scan);
    CombinedResourcesEmpty(scans);
    if exists g :: g in groups && scan(g).resources != [] {
      var g :| g in groups && scan(g).resources != [];
      var i :| 0 <= i < |groups| && groups[i] == g;
      assert scans[i].resources != [];
    }
  }

  /** The outcome of an export before rendering: the graph that was built and the file to write. */
  datatype Exported = Exported(config: VisualizationConfig, built: Built, file: string)

  /** `export_diagram` up to rendering: the plan, then `build_graph` on the combined discovery. */
  function ExportDiagram(options: VisualizationConfig, arg: GroupArgument, available: seq<string>,
                         scan: string -> GroupScan, outputFile: string): (r: Result<Exported>)
    ensures var plan := PlanExport(options, arg, available, scan, outputFile);
      && (r.Ok? <==> plan.Ok?)
      && (r.Ok? ==> r.value.file == plan.value.file && r.value.config == plan.value.config)
      && (r.Ok? ==> r.value.built == BuildGraph(plan.value.config, plan.value.resources, plan.value.topology, []))
  {
    match PlanExport(options, arg, available, scan, outputFile)
    case Err(message) => Err(message)
    case Ok(plan) =>
      Ok(Exported(plan.config, BuildGraph(plan.config, plan.resources, plan.topology, []), plan.file))
  }

  /** The DOT text of an export, with the subscription's name and id for its title. */
  function ExportedDot(e: Exported, subscriptionName: Option<string>, subscriptionId: Option<string>,
                       html: HtmlLabels): (dot: string)
    ensures StartsWith(dot, Header) && EndsWith(dot, "}")
  {
    DocumentFraming(e.config, e.built.graph, e.built.subgraphs, subscriptionName, subscriptionId, html);
    GenerateDot(e.config, e.built.graph, e.built.subgraphs, subscriptionName, subscriptionId, html)
  }
}
