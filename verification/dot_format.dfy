/**
 * Single DOT statements of the emitter: quoting, node definitions with their
 * attribute pass-through, edge definitions, the edge list and the legend.
 */
module DotFormat {
  import opened Wrappers
  import opened Text
  import opened OMaps
  import opened Seqs
  import opened Models
  import opened DiGraphs

  // -------------------------------------------------------------- quoting

  /** `s.replace('"', '\\"')`: every quote gets a backslash in front. */
  function EscapeQuotes(s: string): (r: string)
    ensures |r| >= |s|
    ensures r != [] ==> r[0] != '"'
    ensures '"' !in s ==> r == s
  {
    if s == [] then []
    else
      var rest := EscapeQuotes(s[1..]);
      assert '"' !in s ==> [s[0]] + s[1..] == s;
      (if s[0] == '"' then "\\\"" else [s[0]]) + rest
  }

  /** How a DOT reader takes a quoted body apart: `\"` is a quote, any other character itself. */
  function UnescapeQuotes(t: string): string
    decreases |t|
  {
    if t == [] then []
    else if |t| >= 2 && t[0] == '\\' && t[1] == '"' then "\"" + UnescapeQuotes(t[2..])
    else [t[0]] + UnescapeQuotes(t[1..])
  }

  /** Escaping loses nothing: the reader recovers the original text. */
  lemma {:induction false} EscapeRoundTrip(s: string)
    ensures UnescapeQuotes(EscapeQuotes(s)) == s
  {
    if s != [] {
      EscapeRoundTrip(s[1..]);
      var rest := EscapeQuotes(s[1..]);
      if s[0] == '"' {
        assert EscapeQuotes(s) == "\\\"" + rest;
        assert ("\\\"" + rest)[2..] == rest;
      } else {
        assert EscapeQuotes(s) == [s[0]] + rest;
        assert ([s[0]] + rest)[1..] == rest;
      }
      assert s == [s[0]] + s[1..];
    }
  }

  /** No quote of the escaped text can close the DOT string: each follows a backslash. */
  lemma {:induction false} EscapedQuotesGuarded(s: string)
    ensures forall i :: 0 <= i < |EscapeQuotes(s)| && EscapeQuotes(s)[i] == '"' ==> i > 0 && EscapeQuotes(s)[i - 1] == '\\'
  {
    if s != [] {
      EscapedQuotesGuarded(s[1..]);
      var rest := EscapeQuotes(s[1..]);
      var head: string := if s[0] == '"' then "\\\"" else [s[0]];
      var r := head + rest;
      assert EscapeQuotes(s) == r;
      forall i | |head| < i < |r| && r[i] == '"' ensures r[i - 1] == '\\' {
        assert r[i] == rest[i - |head|];
        assert r[i - 1] == rest[i - |head| - 1];
      }
    }
  }

  /** Joining with a separator starts with the first part. */
  lemma JoinStartsWith(parts: seq<string>, sep: string)
    requires |parts| >= 1
    ensures StartsWith(Join(parts, sep), parts[0])
  {
    if |parts| > 1 {
      assert Join(parts, sep) == parts[0] + (sep + Join(parts[1..], sep));
    }
  }

  // ----------------------------------------------------------------- nodes

  /** `node_data.get(key, default)` as the text Python would format. */
  function TextAttr(data: OMap<string, Value>, key: string, default: string): string {
    var v := Get(data, key);
    if v.Some? then ValueText(v.value) else default
  }

  /** `f'{attr}="{value}"'` for a string, `f'{attr}={value}'` otherwise. */
  function AttrText(key: string, v: Value): string {
    if v.VStr? then key + "=\"" + v.s + "\"" else key + "=" + ValueText(v)
  }

  /** Keys `_format_node` writes itself and so does not pass through. */
  const NodeOwnKeys: set<string> :=
    {"label", "shape", "style", "name", "category", "resource_type", "fillcolor", "fontname", "fontcolor"}

  /** Every other node attribute, in attribute order, copied verbatim. */
  function NodePassThrough(data: OMap<string, Value>): (attrs: seq<string>)
    ensures |attrs| <= |data|
  {
    if data == [] then []
    else (if data[0].0 in NodeOwnKeys then [] else [AttrText(data[0].0, data[0].1)]) + NodePassThrough(data[1..])
  }

  /** The pass-through holds exactly one formatted attribute per entry with a key of its own. */
  lemma {:induction false} NodePassThroughMembers(data: OMap<string, Value>)
    ensures forall e :: e in data && e.0 !in NodeOwnKeys ==> AttrText(e.0, e.1) in NodePassThrough(data)
    ensures forall a :: a in NodePassThrough(data) ==>
      exists e :: e in data && e.0 !in NodeOwnKeys && a == AttrText(e.0, e.1)
  {
    if data != [] {
      NodePassThroughMembers(data[1..]);
      assert forall e :: e in data <==> e == data[0] || e in data[1..];
    }
  }

  /** The text-only node: the escaped name as label, a filled box in the theme's colours. */
  function FallbackAttributes(theme: ThemeConfig, name: string): seq<string> {
    ["label=\"" + EscapeQuotes(name) + "\"", "shape=\"box\"", "style=\"filled\"",
     "fillcolor=\"" + theme.nodeColor + "\"", "fontname=\"" + theme.fontName + "\"",
     "fontcolor=\"" + theme.fontColor + "\""]
  }

  /**
   * The attribute list of `_format_node`. `html` is what the HTML-table
   * branch builds when an icon file exists for the node's type, and `None`
   * when there is no icon.
   */
  function NodeAttributes(theme: ThemeConfig, id: string, data: OMap<string, Value>, html: Option<seq<string>>): (attrs: seq<string>)
    ensures |attrs| >= |NodePassThrough(data)|
    ensures attrs[|attrs| - |NodePassThrough(data)|..] == NodePassThrough(data)
  {
    var leading := if html.Some? then html.value else FallbackAttributes(theme, TextAttr(data, "name", id));
    leading + NodePassThrough(data)
  }

  /** `"id" [attr, attr, ...];` */
  function FormatNode(theme: ThemeConfig, id: string, data: OMap<string, Value>, html: Option<seq<string>>): (line: string)
    ensures StartsWith(line, "\"" + id + "\" [")
    ensures EndsWith(line, "];")
  {
    var open := "\"" + id + "\" [";
    var line := open + Join(NodeAttributes(theme, id, data, html), ", ") + "];";
    assert line[..|open|] == open;
    line
  }

  /**
   * Without an icon the label is the node's name, or its id when it has none,
   * escaped so that a DOT reader gets the text back; the theme's node colour fills it.
   */
  lemma FallbackLabel(theme: ThemeConfig, id: string, data: OMap<string, Value>)
    ensures var attrs := NodeAttributes(theme, id, data, None);
      var a := attrs[0];
      && |a| >= 8 && a[..7] == "label=\"" && a[|a| - 1] == '"'
      && UnescapeQuotes(a[7..|a| - 1]) == (if "name" in Keys(data) then ValueText(Get(data, "name").value) else id)
      && attrs[3] == "fillcolor=\"" + theme.nodeColor + "\""
  {
    var name := TextAttr(data, "name", id);
    var a := "label=\"" + EscapeQuotes(name) + "\"";
    assert a[7..|a| - 1] == EscapeQuotes(name);
    EscapeRoundTrip(name);
  }

  // ----------------------------------------------------------------- edges

  /** `edge_data.get("edge_type", "association")`. */
  function EdgeTypeOf(data: OMap<string, string>): string {
    Get(data, "edge_type").GetOr("association")
  }

  function EdgeStyleAttributes(data: OMap<string, string>): seq<string> {
    if EdgeTypeOf(data) == "dependency" then ["style=\"dashed\"", "color=\"red\""] else ["style=\"solid\""]
  }

  /** Every edge attribute other than label and edge type, quoted. */
  function EdgePassThrough(data: OMap<string, string>): (attrs: seq<string>)
    ensures |attrs| <= |data|
  {
    if data == [] then []
    else
      (if data[0].0 == "label" || data[0].0 == "edge_type" then [] else [data[0].0 + "=\"" + data[0].1 + "\""])
      + EdgePassThrough(data[1..])
  }

  /** The attribute list of `_format_edge`. */
  function EdgeAttributes(data: OMap<string, string>): seq<string> {
    var lbl := Get(data, "label");
    (if lbl.Some? && lbl.value != "" then ["label=\"" + EscapeQuotes(lbl.value) + "\""] else [])
      + EdgeStyleAttributes(data) + EdgePassThrough(data)
  }

  /**
   * The bracket list is never empty; it opens with the escaped label exactly
   * when the label is non-empty, followed by the dashed red style for a
   * dependency and the solid style for every other kind.
   */
  lemma EdgeAttributesShape(data: OMap<string, string>)
    ensures var attrs := EdgeAttributes(data);
      var lbl := Get(data, "label");
      var hasLabel := lbl.Some? && lbl.value != "";
      var o := if hasLabel then 1 else 0;
      && |attrs| > o
      && (hasLabel ==> attrs[0] == "label=\"" + EscapeQuotes(lbl.value) + "\"")
      && (EdgeTypeOf(data) == "dependency" ==> |attrs| > o + 1 && attrs[o] == "style=\"dashed\"" && attrs[o + 1] == "color=\"red\"")
      && (EdgeTypeOf(data) != "dependency" ==> attrs[o] == "style=\"solid\"")
  { }

  /** `"s" -> "t" [attrs];` */
  function FormatEdge(source: string, target: string, data: OMap<string, string>): (line: string)
    ensures StartsWith(line, "\"" + source + "\" -> \"" + target + "\" [")
    ensures EndsWith(line, "];")
  {
    var open := "\"" + source + "\" -> \"" + target + "\" [";
    var line := open + Join(EdgeAttributes(data), ", ") + "];";
    assert line[..|open|] == open;
    line
  }

  function EdgeLine(e: (EdgeKey, OMap<string, string>)): string {
    "    " + FormatEdge(e.0.0, e.0.1, e.1)
  }

  /** One indented line per edge, in iteration order. */
  function EdgeLines(edges: seq<(EdgeKey, OMap<string, string>)>): (lines: seq<string>)
    ensures |lines| == |edges|
    ensures forall i :: 0 <= i < |edges| ==> lines[i] == EdgeLine(edges[i])
  {
    if edges == [] then [] else [EdgeLine(edges[0])] + EdgeLines(edges[1..])
  }

  /** `_generate_edges`. */
  function GenerateEdges(g: DiGraph): string {
    Join(EdgeLines(EdgeList(g)), "\n")
  }

  /** Every stored edge gets its line, and every line is a stored edge's. */
  lemma EdgeLinesCoverGraph(g: DiGraph)
    requires WellFormed(g)
    ensures forall e :: e in g.edges ==> EdgeLine(e) in EdgeLines(EdgeList(g))
    ensures forall l :: l in EdgeLines(EdgeList(g)) ==> exists e :: e in g.edges && l == EdgeLine(e)
  {
    EdgeListMembers(g);
    var es := EdgeList(g);
    forall e | e in g.edges ensures EdgeLine(e) in EdgeLines(es) {
      var i :| 0 <= i < |es| && es[i] == e;
      assert EdgeLines(es)[i] == EdgeLine(e);
    }
  }

  // ---------------------------------------------------------------- legend

  /** `any(data.get("edge_type") == t for _, _, data in graph.edges(data=True))`. */
  predicate HasEdgeType(g: DiGraph, t: string) {
    exists e :: e in EdgeList(g) && Get(e.1, "edge_type") == Some(t)
  }

  const AssocLegend: seq<string> := [
    "        \"legend_assoc_src\" [label=\"Resource A\", shape=box];",
    "        \"legend_assoc_dst\" [label=\"Resource B\", shape=box];",
    "        \"legend_assoc_src\" -> \"legend_assoc_dst\" [label=\"Associated\", style=solid];",
    ""]

  const DepLegend: seq<string> := [
    "        \"legend_dep_src\" [label=\"Resource C\", shape=box];",
    "        \"legend_dep_dst\" [label=\"Resource D\", shape=box];",
    "        \"legend_dep_src\" -> \"legend_dep_dst\" [label=\"Depends On\", style=dashed, color=red];"]

  function LegendLines(theme: Theme, hasAssociations: bool, hasDependencies: bool): seq<string> {
    var fill := if theme == Light then "white" else "gray";
    ["    // Legend", "    subgraph \"cluster_legend\" {", "        label=\"Legend\";", "        style=\"filled\";",
     "        fillcolor=\"" + fill + "\";", "        fontcolor=\"" + ThemeOf(theme).fontColor + "\";", ""]
    + (if hasAssociations then AssocLegend else [])
    + (if hasDependencies then DepLegend else [])
    + ["    }"]
  }

  /** `_generate_legend`: nothing unless the graph has an association or a dependency edge. */
  function Legend(theme: Theme, g: DiGraph): string {
    var a := HasEdgeType(g, "association");
    var d := HasEdgeType(g, "dependency");
    if !a && !d then "" else Join(LegendLines(theme, a, d), "\n")
  }

  /** Each legend block is present exactly when its edge kind is. */
  lemma LegendBlocks(theme: Theme, a: bool, d: bool)
    ensures AssocLegend[0] in LegendLines(theme, a, d) <==> a
    ensures DepLegend[0] in LegendLines(theme, a, d) <==> d
  {
    var lines := LegendLines(theme, a, d);
    var fill := if theme == Light then "white" else "gray";
    var head := ["    // Legend", "    subgraph \"cluster_legend\" {", "        label=\"Legend\";", "        style=\"filled\";",
     "        fillcolor=\"" + fill + "\";", "        fontcolor=\"" + ThemeOf(theme).fontColor + "\";", ""];
    forall i | 0 <= i < |head| ensures head[i] != AssocLegend[0] && head[i] != DepLegend[0] {
      if i == 4 || i == 5 {
        assert |head[i]| < 30;
      }
    }
    assert AssocLegend[0] !in DepLegend && DepLegend[0] !in AssocLegend;
  }

  /** The legend is empty exactly when the graph has no association and no dependency edge. */
  lemma LegendEmptyIff(theme: Theme, g: DiGraph)
    ensures Legend(theme, g) == "" <==> !HasEdgeType(g, "association") && !HasEdgeType(g, "dependency")
  {
    var a := HasEdgeType(g, "association");
    var d := HasEdgeType(g, "dependency");
    if a || d {
      JoinStartsWith(LegendLines(theme, a, d), "\n");
    }
  }

  /** A graph whose edges are all DNS-service edges gets no legend. */
  lemma DnsOnlyGraphHasNoLegend(theme: Theme, g: DiGraph)
    requires WellFormed(g)
    requires forall e :: e in g.edges ==> Get(e.1, "edge_type") == Some("dns_service")
    ensures Legend(theme, g) == ""
  {
    EdgeListMembers(g);
    assert !HasEdgeType(g, "association");
    assert !HasEdgeType(g, "dependency");
  }

  // --------------------------------------------- pieces of the HTML label

  /** The power-state colour: running is green, stopped or deallocated red, anything else orange. */
  function PowerStateColor(state: string): (color: string)
    ensures color == "green" <==> state == "running"
    ensures color == "red" <==> state == "stopped" || state == "deallocated"
    ensures color == "orange" <==> state != "running" && state != "stopped" && state != "deallocated"
  {
    if state == "running" then "green" else if state == "stopped" || state == "deallocated" then "red" else "orange"
  }

  /** A tenant note longer than 60 characters keeps its first 57 and gains "...". */
  function TruncateNote(note: string): (shown: string)
    ensures |shown| <= 60
    ensures shown == note <==> |note| <= 60
    ensures |note| > 60 ==> StartsWith(shown, note[..57]) && EndsWith(shown, "...")
  {
    if |note| > 60 then note[..57] + "..." else note
  }
}
