/**
 * The whole DOT document: the fixed graph, node and edge attribute blocks,
 * the subscription title, the master container holding the cluster section
 * and the standalone nodes, then the edges, the title positioning and the
 * legend, stripped of surrounding whitespace.
 */
module DotDocument {
  import opened Wrappers
  import opened Text
  import opened OMaps
  import opened Seqs
  import opened Models
  import opened DiGraphs
  import opened GraphAssembly
  import opened DotFormat
  import opened DotClusters

  // ------------------------------------------------------------ indenting

  function Spaces(n: nat): (s: string)
    ensures |s| == n
    ensures forall i :: 0 <= i < n ==> s[i] == ' '
  {
    seq(n, _ => ' ')
  }

  /** A line with something other than whitespace gets the indent; a blank line is kept as it is. */
  function IndentLine(line: string, n: nat): string {
    if IsBlank(line) then line else Spaces(n) + line
  }

  function IndentLines(lines: seq<string>, n: nat): (r: seq<string>)
    ensures |r| == |lines|
    ensures forall i :: 0 <= i < |lines| ==> r[i] == IndentLine(lines[i], n)
  {
    if lines == [] then [] else [IndentLine(lines[0], n)] + IndentLines(lines[1..], n)
  }

  /** `_indent_content`: blank content is returned unchanged. */
  function IndentContent(content: string, n: nat): string {
    if IsBlank(content) then content else Join(IndentLines(Split(content, '\n'), n), "\n")
  }

  /**
   * Indenting keeps the line structure: the result has the same number of
   * lines, each non-blank line prefixed with `n` spaces and each blank line
   * as it was.
   */
  lemma IndentContentLines(content: string, n: nat)
    ensures IsBlank(content) ==> IndentContent(content, n) == content
    ensures !IsBlank(content) ==> Split(IndentContent(content, n), '\n') == IndentLines(Split(content, '\n'), n)
  {
    if !IsBlank(content) {
      var lines := Split(content, '\n');
      var out := IndentLines(lines, n);
      SplitPartsFree(content, '\n');
      forall i | 0 <= i < |out| ensures '\n' !in out[i] {
        assert '\n' !in lines[i];
        if !IsBlank(lines[i]) {
          assert out[i] == Spaces(n) + lines[i];
        }
      }
      SplitJoin(out, '\n');
    }
  }

  // ---------------------------------------------------- attribute blocks

  const Header: string := "digraph AzureTopology {"

  function GraphAttributeLines(config: VisualizationConfig): seq<string> {
    var theme := ThemeOf(config.theme);
    ["    // Graph attributes",
     "    rankdir=\"LR\";",
     "    splines=\"" + SplinesValue(config.splines) + "\";",
     "    bgcolor=\"" + theme.backgroundColor + "\";",
     "    fontname=\"" + theme.fontName + "\";",
     "    fontsize=\"" + theme.fontSize + "\";",
     "    fontcolor=\"" + theme.fontColor + "\";",
     "    dpi=\"300\";",
     "    concentrate=false;",
     "    compound=true;",
     "    newrank=true;",
     "    ordering=\"out\";",
     "    esep=\"+15\";",
     "    sep=\"+10\";",
     "    nodesep=\"0.5\";",
     "    ranksep=\"0.4\";",
     "    size=\"12,8!\";",
     "    ratio=\"compress\";",
     "    pack=\"true\";",
     "    packmode=\"clust\";"]
  }

  function GraphAttributes(config: VisualizationConfig): string {
    Join(GraphAttributeLines(config), "\n")
  }

  /** The rank direction is fixed to left-to-right whatever direction is configured. */
  lemma GraphAttributesIgnoreDirection(config: VisualizationConfig, d: Direction)
    ensures GraphAttributes(config.(direction := d)) == GraphAttributes(config)
    ensures "    rankdir=\"LR\";" in GraphAttributeLines(config)
  {
    assert GraphAttributeLines(config)[1] == "    rankdir=\"LR\";";
  }

  function NodeDefaults(theme: ThemeConfig): string {
    Join(["    // Default node attributes",
          "    node [",
          "        shape=box,",
          "        style=filled,",
          "        fillcolor=\"" + theme.nodeColor + "\",",
          "        fontname=\"" + theme.fontName + "\",",
          "        fontsize=\"" + theme.fontSize + "\",",
          "        fontcolor=\"" + theme.fontColor + "\",",
          "        color=\"" + theme.edgeColor + "\",",
          "        height=\"1.2\",",
          "        width=\"1.8\",",
          "        margin=\"0.1\"",
          "    ];"], "\n")
  }

  function EdgeDefaults(theme: ThemeConfig): string {
    Join(["    // Default edge attributes",
          "    edge [",
          "        fontname=\"" + theme.fontName + "\",",
          "        fontsize=\"8\",",
          "        fontcolor=\"" + theme.fontColor + "\",",
          "        color=\"" + theme.edgeColor + "\"",
          "    ];"], "\n")
  }

  // --------------------------------------------------- subscription title

  /** An optional string argument is given when it is neither `None` nor empty. */
  predicate Given(s: Option<string>) {
    s.Some? && s.value != ""
  }

  /** The title text; the line break is DOT's two-character `\n` escape. */
  function TitleText(name: Option<string>, id: Option<string>): string
    requires Given(name) || Given(id)
  {
    if Given(name) && Given(id) then "Subscription Name: " + name.value + "\\nSubscription ID: " + id.value
    else if Given(name) then "Subscription Name: " + name.value
    else "Subscription ID: " + id.value
  }

  /** A given name opens the title; without an id it is the whole title. */
  lemma TitleTextName(name: Option<string>, id: Option<string>)
    requires Given(name)
    ensures StartsWith(TitleText(name, id), "Subscription Name: " + name.value)
    ensures !Given(id) ==> TitleText(name, id) == "Subscription Name: " + name.value
  {
    var p := "Subscription Name: " + name.value;
    assert TitleText(name, id)[..|p|] == p;
  }

  /** A given id closes the title; without a name it is the whole title. */
  lemma TitleTextId(name: Option<string>, id: Option<string>)
    requires Given(id)
    ensures EndsWith(TitleText(name, id), "Subscription ID: " + id.value)
    ensures !Given(name) ==> TitleText(name, id) == "Subscription ID: " + id.value
  {
    var t := TitleText(name, id);
    var p := "Subscription ID: " + id.value;
    var lead := if Given(name) then "Subscription Name: " + name.value + "\\n" else "";
    assert t == lead + p;
    assert t[|t| - |p|..] == p;
  }

  /** The comment line that opens the title block; its short first piece lets the verifier read the '/' characters. */
  const TitleComment: string := "    //" + " Subscription Title (compact, minimal padding, background color)"

  function TitleLabelLine(name: Option<string>, id: Option<string>): string
    requires Given(name) || Given(id)
  {
    "        label=\"" + EscapeQuotes(TitleText(name, id)) + "\","
  }

  function SubscriptionLines(theme: ThemeConfig, name: Option<string>, id: Option<string>): seq<string>
    requires Given(name) || Given(id)
  {
    [TitleComment,
     "    \"subscription_title\" [",
     TitleLabelLine(name, id),
     "        shape=\"box\",",
     "        style=\"filled\",",
     "        fillcolor=\"" + theme.backgroundColor + "\",",
     "        fontname=\"" + theme.fontName + "\",",
     "        fontsize=\"10\",",
     "        fontcolor=\"" + theme.fontColor + "\",",
     "        color=\"" + theme.backgroundColor + "\",",
     "        penwidth=\"0\",",
     "        height=\"0.4\",",
     "        width=\"4.0\",",
     "        margin=\"0.02\",",
     "        labeljust=\"l\",",
     "        labelloc=\"t\"",
     "    ];",
     ""]
  }

  /** `_generate_subscription_title`. */
  function SubscriptionTitle(theme: ThemeConfig, name: Option<string>, id: Option<string>): string {
    if !Given(name) && !Given(id) then "" else Join(SubscriptionLines(theme, name, id), "\n") + "\n"
  }

  lemma CommentNotBlank(t: string)
    requires StartsWith(t, TitleComment)
    ensures !IsBlank(t)
  {
    assert t[4] == t[..|TitleComment|][4] == TitleComment[4] == '/';
    assert !IsSpace(t[4]);
  }

  /** There is a title exactly when a subscription name or id is given. */
  lemma SubscriptionTitleBlankIff(theme: ThemeConfig, name: Option<string>, id: Option<string>)
    ensures IsBlank(SubscriptionTitle(theme, name, id)) <==> !Given(name) && !Given(id)
  {
    if Given(name) || Given(id) {
      var ls := SubscriptionLines(theme, name, id);
      var j := Join(ls, "\n");
      JoinStartsWith(ls, "\n");
      assert (j + "\n")[..|TitleComment|] == j[..|TitleComment|];
      CommentNotBlank(j + "\n");
    }
  }

  /** The title's label gives the title text back once the DOT escapes are undone. */
  lemma TitleLabelRoundTrip(name: Option<string>, id: Option<string>)
    requires Given(name) || Given(id)
    ensures var lbl := TitleLabelLine(name, id);
      && StartsWith(lbl, "        label=\"")
      && UnescapeQuotes(lbl[15..|lbl| - 2]) == TitleText(name, id)
  {
    var lbl := TitleLabelLine(name, id);
    var esc := EscapeQuotes(TitleText(name, id));
    assert lbl[15..|lbl| - 2] == esc;
    EscapeRoundTrip(TitleText(name, id));
  }

  // ----------------------------------------------------- standalone nodes

  /** Every id listed as a member of some cluster. */
  function ClusterMemberSet(subgraphs: OMap<string, Cluster>): (ids: set<string>)
    ensures forall id :: id in ids <==> exists e :: e in subgraphs && id in e.1.members
  {
    if subgraphs == [] then {}
    else
      var rest := ClusterMemberSet(subgraphs[1..]);
      assert forall e :: e in subgraphs <==> e == subgraphs[0] || e in subgraphs[1..];
      (set m | m in subgraphs[0].1.members) + rest
  }

  /** The graph's nodes, in node order, that no cluster lists. */
  function Unclustered(nodes: OMap<string, OMap<string, Value>>, clustered: set<string>): (r: OMap<string, OMap<string, Value>>)
    ensures forall e :: e in r <==> e in nodes && e.0 !in clustered
  {
    if nodes == [] then []
    else
      var rest := Unclustered(nodes[1..], clustered);
      assert forall e :: e in nodes <==> e == nodes[0] || e in nodes[1..];
      (if nodes[0].0 !in clustered then [nodes[0]] else []) + rest
  }

  /** `node_data.get('resource_type') == 'Internet/Gateway'`, compared exactly. */
  predicate IsInternetNode(data: OMap<string, Value>) {
    Get(data, "resource_type") == Some(VStr("Internet/Gateway"))
  }

  /** The entries that are, or are not, Internet nodes, in entry order. */
  function InternetSplit(entries: OMap<string, OMap<string, Value>>, internet: bool): (r: OMap<string, OMap<string, Value>>)
    ensures |r| <= |entries|
    ensures forall e :: e in r <==> e in entries && IsInternetNode(e.1) == internet
  {
    if entries == [] then []
    else
      var rest := InternetSplit(entries[1..], internet);
      assert forall e :: e in entries <==> e == entries[0] || e in entries[1..];
      (if IsInternetNode(entries[0].1) == internet then [entries[0]] else []) + rest
  }

  /** Each entry is either an Internet node or not, so the two halves account for all entries. */
  lemma {:induction false} InternetSplitCount(entries: OMap<string, OMap<string, Value>>)
    ensures |InternetSplit(entries, true)| + |InternetSplit(entries, false)| == |entries|
  {
    if entries != [] {
      InternetSplitCount(entries[1..]);
    }
  }

  function NodeDefs(theme: ThemeConfig, entries: OMap<string, OMap<string, Value>>, html: HtmlLabels): (lines: seq<string>)
    ensures |lines| == |entries|
    ensures forall i :: 0 <= i < |entries| ==> lines[i] == "    " + NodeLine(theme, entries[i].0, entries[i].1, html)
  {
    if entries == [] then [] else ["    " + NodeLine(theme, entries[0].0, entries[0].1, html)] + NodeDefs(theme, entries[1..], html)
  }

  /** Internet node definitions first, their far-left `rank=same` group, then the other nodes. */
  function StandaloneLines(theme: ThemeConfig, g: DiGraph, subgraphs: OMap<string, Cluster>, html: HtmlLabels): seq<string> {
    var entries := Unclustered(g.nodes, ClusterMemberSet(subgraphs));
    var internet := InternetSplit(entries, true);
    var others := InternetSplit(entries, false);
    NodeDefs(theme, internet, html)
    + (if internet != [] then
         ["    // Position Internet nodes at far left (below subscription)", "    " + RankSame(Keys(internet))]
       else [])
    + NodeDefs(theme, others, html)
  }

  function StandaloneNodes(theme: ThemeConfig, g: DiGraph, subgraphs: OMap<string, Cluster>, html: HtmlLabels): string {
    Join(StandaloneLines(theme, g, subgraphs, html), "\n")
  }

  /** Every graph node outside the clusters is defined in the standalone section. */
  lemma StandaloneDefinesNode(theme: ThemeConfig, g: DiGraph, subgraphs: OMap<string, Cluster>, html: HtmlLabels, e: (string, OMap<string, Value>))
    requires e in g.nodes
    requires forall c :: c in subgraphs ==> e.0 !in c.1.members
    ensures "    " + NodeLine(theme, e.0, e.1, html) in StandaloneLines(theme, g, subgraphs, html)
  {
    var entries := Unclustered(g.nodes, ClusterMemberSet(subgraphs));
    var half := InternetSplit(entries, IsInternetNode(e.1));
    assert e in half;
    var i :| 0 <= i < |half| && half[i] == e;
    assert NodeDefs(theme, half, html)[i] == "    " + NodeLine(theme, e.0, e.1, html);
  }

  lemma QuotedPrefixContains(line: string, id: string)
    requires StartsWith(line, "\"" + id + "\" [")
    ensures Contains(line, id)
  {
    var open := "\"" + id + "\" [";
    assert line[1..][..|id|] == open[1..1 + |id|] == id;
  }

  /** The standalone text contains the id of every graph node outside the clusters. */
  lemma StandaloneMentionsNode(theme: ThemeConfig, g: DiGraph, subgraphs: OMap<string, Cluster>, html: HtmlLabels, e: (string, OMap<string, Value>))
    requires e in g.nodes
    requires forall c :: c in subgraphs ==> e.0 !in c.1.members
    ensures Contains(StandaloneNodes(theme, g, subgraphs, html), e.0)
  {
    StandaloneDefinesNode(theme, g, subgraphs, html, e);
    var lines := StandaloneLines(theme, g, subgraphs, html);
    var def := NodeLine(theme, e.0, e.1, html);
    var i :| 0 <= i < |lines| && lines[i] == "    " + def;
    QuotedPrefixContains(def, e.0);
    ContainsSuffix("    ", def, e.0);
    JoinContainsPart(lines, "\n", i, e.0);
  }

  // ------------------------------------------------------ title placement

  const InternetAnchor: string := "internet_internet_gateway"

  /**
   * The node the subscription title is tied to: the first cluster's title
   * when it has a usable name, else the Internet node when the standalone
   * section mentions it.
   */
  function SubscriptionAnchor(subgraphs: OMap<string, Cluster>, standalone: string): Option<string> {
    if subgraphs != [] then
      var clean := CleanClusterName(subgraphs[0].0);
      if clean != "" && '"' !in clean then Some(TitleId(subgraphs[0].0)) else None
    else if Contains(standalone, InternetAnchor) then Some(InternetAnchor)
    else None
  }

  function SubscriptionPositioning(title: string, anchor: Option<string>): string {
    if IsBlank(title) then ""
    else
      "\n    // Position subscription title above master container\n    {rank=min; \"subscription_title\";}"
      + (if anchor.Some? then "\n    \"subscription_title\" -> \"" + anchor.value + "\" [style=invis, weight=100, minlen=1];" else "")
      + "\n"
  }

  /**
   * Without clusters, a graph whose Internet node stands alone has the
   * subscription title tied to that node.
   */
  lemma AnchorFallsBackToInternet(theme: ThemeConfig, g: DiGraph, html: HtmlLabels, data: OMap<string, Value>)
    requires (InternetAnchor, data) in g.nodes
    ensures SubscriptionAnchor([], StandaloneNodes(theme, g, [], html)) == Some(InternetAnchor)
  {
    StandaloneMentionsNode(theme, g, [], html, (InternetAnchor, data));
  }

  /** With clusters, the title is tied to the first cluster's external title node. */
  lemma AnchorPrefersFirstTitle(subgraphs: OMap<string, Cluster>, standalone: string)
    requires subgraphs != []
    requires CleanClusterName(subgraphs[0].0) != "" && '"' !in CleanClusterName(subgraphs[0].0)
    ensures SubscriptionAnchor(subgraphs, standalone) == Some(TitleId(subgraphs[0].0))
    ensures FirstTitle(subgraphs) == SubscriptionAnchor(subgraphs, standalone)
  { }

  // -------------------------------------------------------------- document

  /** The template lines between the header and the closing brace. */
  function DocumentBody(config: VisualizationConfig, g: DiGraph, subgraphs: OMap<string, Cluster>,
                        name: Option<string>, id: Option<string>, html: HtmlLabels): seq<string>
  {
    var theme := ThemeOf(config.theme);
    var title := SubscriptionTitle(theme, name, id);
    var clusters := ClusterSection(theme, g, subgraphs, html);
    var standalone := StandaloneNodes(theme, g, subgraphs, html);
    var legend := if config.showLegends then Legend(config.theme, g) else "";
    var positioning := SubscriptionPositioning(title, SubscriptionAnchor(subgraphs, standalone));
    [GraphAttributes(config), NodeDefaults(theme), EdgeDefaults(theme), "",
     title, "",
     "    // Master container encompassing all content",
     "    subgraph cluster_master {",
     "        label=\"\";",
     "        style=\"solid\";",
     "        color=\"lightgray\";",
     "        margin=\"10\";",
     "",
     IndentContent(clusters, 2),
     IndentContent(standalone, 2),
     "    }",
     "",
     GenerateEdges(g),
     positioning,
     legend]
  }

  /** `generate_dot`: the template filled in, with surrounding whitespace stripped. */
  function GenerateDot(config: VisualizationConfig, g: DiGraph, subgraphs: OMap<string, Cluster>,
                       name: Option<string>, id: Option<string>, html: HtmlLabels): string {
    var parts := [Header] + DocumentBody(config, g, subgraphs, name, id, html) + ["}"];
    Strip("\n" + Join(parts, "\n") + "\n")
  }

  /** Text that opens with the header and closes with a brace survives the strip unchanged. */
  lemma FramedStrip(body: string)
    requires StartsWith(body, Header) && EndsWith(body, "}")
    ensures Strip("\n" + body + "\n") == body
  {
    assert body[0] == body[..|Header|][0] == 'd';
    assert body[|body| - 1] == body[|body| - 1..][0] == '}';
    assert "\n" + body + "\n" == "\n" + (body + "\n");
    StripLeftSkipsSpace("\n", body + "\n");
    StripRightSkipsSpace(body, "\n");
  }

  /** The document is a single digraph: it opens with its header and closes with its brace. */
  lemma DocumentFraming(config: VisualizationConfig, g: DiGraph, subgraphs: OMap<string, Cluster>,
                        name: Option<string>, id: Option<string>, html: HtmlLabels)
    ensures var doc := GenerateDot(config, g, subgraphs, name, id, html);
      StartsWith(doc, Header) && EndsWith(doc, "}")
  {
    var parts := [Header] + DocumentBody(config, g, subgraphs, name, id, html) + ["}"];
    JoinStartsWith(parts, "\n");
    JoinEndsWith(parts, "\n");
    FramedStrip(Join(parts, "\n"));
  }

  /** The subscription title is positioned exactly when a subscription name or id is given. */
  lemma PositioningNeedsSubscription(theme: ThemeConfig, name: Option<string>, id: Option<string>, anchor: Option<string>)
    ensures SubscriptionPositioning(SubscriptionTitle(theme, name, id), anchor) == "" <==> !Given(name) && !Given(id)
  {
    SubscriptionTitleBlankIff(theme, name, id);
  }
}
