/**
 * The cluster section of the DOT document: a dashed container holding one
 * subgraph per resource group, with an external title node per group, nodes
 * laid out in priority columns, invisible ordering and alignment edges, and
 * the title positioning at the end.
 */
module DotClusters {
  import opened Wrappers
  import opened Text
  import opened OMaps
  import opened Seqs
  import opened Models
  import opened NodeIds
  import opened DiGraphs
  import opened GraphAssembly
  import opened DotFormat

  /**
   * The attribute list the HTML-table branch of `_format_node` builds for a
   * node, when an icon file exists for its type; `None` selects the text-only
   * branch.
   */
  type HtmlLabels = (string, OMap<string, Value>) -> Option<seq<string>>

  function NodeLine(theme: ThemeConfig, id: string, data: OMap<string, Value>, html: HtmlLabels): string {
    FormatNode(theme, id, data, html(id, data))
  }

  function Quoted(s: string): string {
    "\"" + s + "\""
  }

  function QuotedAll(ids: seq<string>): (r: seq<string>)
    ensures |r| == |ids|
    ensures forall i :: 0 <= i < |ids| ==> r[i] == Quoted(ids[i])
  {
    if ids == [] then [] else [Quoted(ids[0])] + QuotedAll(ids[1..])
  }

  /** `{rank=same; "a"; "b";}` */
  function RankSame(ids: seq<string>): string {
    "{rank=same; " + Join(QuotedAll(ids), "; ") + ";}"
  }

  // ------------------------------------------------------------ priorities

  /** The layout column of each lower-case resource type. */
  type Level = p: int | 1 <= p <= 8 witness 1

  const PriorityTable: seq<(string, Level)> := [
    ("microsoft.network/publicipaddresses", 1),
    ("microsoft.network/networksecuritygroups", 2),
    ("microsoft.network/networkinterfaces", 3),
    ("microsoft.network/virtualnetworks/subnets", 4),
    ("microsoft.network/virtualnetworks", 5),
    ("microsoft.compute/virtualmachines", 6),
    ("microsoft.compute/virtualmachinescalesets", 6),
    ("microsoft.containerservice/managedclusters", 6),
    ("microsoft.redhatopenshift/openshiftclusters", 6),
    ("microsoft.compute/disks", 7),
    ("microsoft.storage/storageaccounts", 7),
    ("microsoft.compute/sshpublickeys", 8),
    ("microsoft.managedidentity/userassignedidentities", 8),
    ("microsoft.compute/galleries", 8),
    ("microsoft.compute/galleries/images", 8),
    ("microsoft.compute/galleries/images/versions", 8)
  ]

  /** Every priority the emitter can produce, ascending: the order `sorted()` gives the buckets. */
  const PriorityLevels: seq<int> := [1, 2, 3, 4, 5, 6, 7, 8, 99]

  /** `priority_order.get(resource_type, 99)`. */
  function Priority(lowerType: string): (p: int)
    ensures 1 <= p <= 8 || p == 99
    ensures p == 99 <==> lowerType !in Keys(PriorityTable)
  {
    var v := Get(PriorityTable, lowerType);
    if v.Some? then v.value else 99
  }

  /** A cluster member that is a node of the graph, with the node's attributes. */
  datatype Member = Member(id: string, data: OMap<string, Value>)

  /** The listed ids that are nodes of the graph, in list order. */
  function PresentMembers(g: DiGraph, ids: seq<string>): (ms: seq<Member>)
    ensures |ms| <= |ids|
    ensures forall m :: m in ms ==> m.id in ids && Get(g.nodes, m.id) == Some(m.data)
  {
    if ids == [] then []
    else
      var n := Get(g.nodes, ids[0]);
      (if n.Some? then [Member(ids[0], n.value)] else []) + PresentMembers(g, ids[1..])
  }

  /** `node_data.get('resource_type', '').lower()`. */
  function TypeKey(m: Member): string {
    Lower(TextAttr(m.data, "resource_type", ""))
  }

  function MemberPriority(m: Member): int {
    Priority(TypeKey(m))
  }

  /** The members of one priority, in member order. */
  function AtPriority(ms: seq<Member>, p: int): seq<Member> {
    if ms == [] then []
    else (if MemberPriority(ms[0]) == p then [ms[0]] else []) + AtPriority(ms[1..], p)
  }

  lemma {:induction false} AtPriorityMembers(ms: seq<Member>, p: int)
    ensures forall m :: m in AtPriority(ms, p) <==> m in ms && MemberPriority(m) == p
  {
    if ms != [] {
      AtPriorityMembers(ms[1..], p);
      assert forall m :: m in ms <==> m == ms[0] || m in ms[1..];
    }
  }

  /** The non-empty priority buckets, one per level in level order. */
  function Buckets(ms: seq<Member>, levels: seq<int>): seq<(int, seq<Member>)> {
    if levels == [] then []
    else
      var b := AtPriority(ms, levels[0]);
      (if b != [] then [(levels[0], b)] else []) + Buckets(ms, levels[1..])
  }

  predicate Ascending(levels: seq<int>) {
    forall i, j :: 0 <= i < j < |levels| ==> levels[i] < levels[j]
  }

  /** Unfolds one level of `Buckets`. */
  lemma BucketsUnfold(ms: seq<Member>, levels: seq<int>)
    requires levels != []
    ensures var b := AtPriority(ms, levels[0]);
      && (b == [] ==> Buckets(ms, levels) == Buckets(ms, levels[1..]))
      && (b != [] ==> Buckets(ms, levels) == [(levels[0], b)] + Buckets(ms, levels[1..]))
  { }

  /** Every bucket is non-empty, carries one of the levels, and holds only members of that priority. */
  lemma {:induction false} BucketsHomogeneous(ms: seq<Member>, levels: seq<int>)
    ensures forall i :: 0 <= i < |Buckets(ms, levels)| ==>
      && Buckets(ms, levels)[i].1 != []
      && Buckets(ms, levels)[i].0 in levels
      && forall m :: m in Buckets(ms, levels)[i].1 ==> MemberPriority(m) == Buckets(ms, levels)[i].0
  {
    if levels != [] {
      BucketsHomogeneous(ms, levels[1..]);
      BucketsUnfold(ms, levels);
      AtPriorityMembers(ms, levels[0]);
      var tail := Buckets(ms, levels[1..]);
      var bs := Buckets(ms, levels);
      forall i | 0 <= i < |bs|
        ensures bs[i].1 != [] && bs[i].0 in levels
        ensures forall m :: m in bs[i].1 ==> MemberPriority(m) == bs[i].0
      {
        if |bs| != |tail| && i > 0 {
          assert bs[i] == tail[i - 1];
        } else if |bs| == |tail| {
          assert bs[i] == tail[i];
        }
      }
    }
  }

  /** The buckets hold exactly the members whose priority is one of the levels. */
  lemma {:induction false} BucketsFlatten(ms: seq<Member>, levels: seq<int>)
    ensures forall m :: m in Flatten(Buckets(ms, levels)) <==> m in ms && MemberPriority(m) in levels
  {
    if levels != [] {
      BucketsFlatten(ms, levels[1..]);
      BucketsUnfold(ms, levels);
      AtPriorityMembers(ms, levels[0]);
      var b := AtPriority(ms, levels[0]);
      var tail := Buckets(ms, levels[1..]);
      var bs := Buckets(ms, levels);
      if b != [] {
        assert bs[1..] == tail;
        assert Flatten(bs) == b + Flatten(tail);
      }
      assert forall x :: x in levels <==> x == levels[0] || x in levels[1..];
    }
  }

  /** Every bucket carries one of the levels. */
  lemma {:induction false} BucketLevels(ms: seq<Member>, levels: seq<int>)
    ensures forall i :: 0 <= i < |Buckets(ms, levels)| ==> Buckets(ms, levels)[i].0 in levels
  {
    if levels != [] {
      BucketLevels(ms, levels[1..]);
      BucketsUnfold(ms, levels);
      var tail := Buckets(ms, levels[1..]);
      var bs := Buckets(ms, levels);
      forall i | 0 <= i < |bs| ensures bs[i].0 in levels {
        if |bs| != |tail| && i > 0 {
          assert bs[i] == tail[i - 1];
        } else if |bs| == |tail| {
          assert bs[i] == tail[i];
        }
      }
    }
  }

  /** Buckets drawn from levels above a bound carry keys above it. */
  lemma {:induction false} BucketsAbove(ms: seq<Member>, levels: seq<int>, lo: int)
    requires forall i :: 0 <= i < |levels| ==> lo < levels[i]
    ensures forall i :: 0 <= i < |Buckets(ms, levels)| ==> lo < Buckets(ms, levels)[i].0
  {
    if levels != [] {
      BucketsAbove(ms, levels[1..], lo);
      BucketsUnfold(ms, levels);
    }
  }

  lemma AscendingCons(x: int, s: seq<int>)
    requires Ascending(s)
    requires forall i :: 0 <= i < |s| ==> x < s[i]
    ensures Ascending([x] + s)
  {
    var t := [x] + s;
    forall i, j | 0 <= i < j < |t| ensures t[i] < t[j] {
      assert t[j] == s[j - 1];
      if i > 0 {
        assert t[i] == s[i - 1];
      }
    }
  }

  lemma AscendingTail(s: seq<int>)
    requires Ascending(s) && s != []
    ensures Ascending(s[1..])
    ensures forall i :: 0 <= i < |s[1..]| ==> s[0] < s[1..][i]
  {
    assert forall i :: 0 <= i < |s[1..]| ==> s[1..][i] == s[i + 1];
  }

  lemma AscendingKeysCons<T>(l: int, b: T, tail: seq<(int, T)>)
    requires Ascending(Keys(tail))
    requires forall i :: 0 <= i < |tail| ==> l < tail[i].0
    ensures Ascending(Keys([(l, b)] + tail))
  {
    var kt := Keys(tail);
    assert Keys([(l, b)] + tail) == [l] + kt;
    assert forall i :: 0 <= i < |kt| ==> kt[i] == tail[i].0;
    AscendingCons(l, kt);
  }

  /** With ascending levels the buckets come in strictly ascending priority. */
  lemma {:induction false} BucketsAscending(ms: seq<Member>, levels: seq<int>)
    requires Ascending(levels)
    ensures Ascending(Keys(Buckets(ms, levels)))
  {
    if levels != [] {
      var rest := levels[1..];
      AscendingTail(levels);
      BucketsAscending(ms, rest);
      BucketsAbove(ms, rest, levels[0]);
      BucketsUnfold(ms, levels);
      var b := AtPriority(ms, levels[0]);
      if b != [] {
        AscendingKeysCons(levels[0], b, Buckets(ms, rest));
      }
    }
  }

  /** Strictly increasing neighbours make a strictly ascending sequence. */
  lemma {:induction false} AscendingBySteps(s: seq<int>)
    requires forall i :: 0 <= i < |s| - 1 ==> s[i] < s[i + 1]
    ensures Ascending(s)
  {
    if |s| > 1 {
      AscendingBySteps(s[1..]);
      forall i, j | 0 <= i < j < |s| ensures s[i] < s[j] {
        if i > 0 {
          assert s[i] == s[1..][i - 1] && s[j] == s[1..][j - 1];
        } else {
          assert s[1] == s[1..][0];
          if j > 1 {
            assert s[j] == s[1..][j - 1];
          }
        }
      }
    }
  }

  lemma LevelsAscending()
    ensures Ascending(PriorityLevels)
  {
    AscendingBySteps(PriorityLevels);
  }

  lemma LevelsComplete(p: int)
    requires 1 <= p <= 8 || p == 99
    ensures p in PriorityLevels
  {
    assert PriorityLevels[if p == 99 then 8 else p - 1] == p;
  }

  /** Every member lands in exactly the bucket of its priority, and the buckets ascend. */
  lemma BucketsCoverMembers(ms: seq<Member>)
    ensures forall m :: m in Flatten(Buckets(ms, PriorityLevels)) <==> m in ms
    ensures Ascending(Keys(Buckets(ms, PriorityLevels)))
  {
    BucketsFlatten(ms, PriorityLevels);
    forall m | m in ms ensures MemberPriority(m) in PriorityLevels {
      LevelsComplete(MemberPriority(m));
    }
    LevelsAscending();
    BucketsAscending(ms, PriorityLevels);
  }

  // ----------------------------------------------------- rank and ordering

  /** `resource_type in ['microsoft.compute/disks', 'microsoft.storage/storageaccounts']`. */
  predicate IsStorage(m: Member) {
    TypeKey(m) == "microsoft.compute/disks" || TypeKey(m) == "microsoft.storage/storageaccounts"
  }

  predicate IsVm(m: Member) {
    TypeKey(m) == "microsoft.compute/virtualmachines"
  }

  /** The ids of a bucket's `rank=same` group: everything but disks and storage accounts. */
  function RankIds(ms: seq<Member>): (ids: seq<string>)
    ensures forall id :: id in ids <==> exists m :: m in ms && !IsStorage(m) && m.id == id
  {
    if ms == [] then []
    else
      var rest := RankIds(ms[1..]);
      assert forall m :: m in ms <==> m == ms[0] || m in ms[1..];
      (if IsStorage(ms[0]) then [] else [ms[0].id]) + rest
  }

  /** The first member of each bucket, in bucket order. */
  function BucketHeads(bs: seq<(int, seq<Member>)>): (heads: seq<string>)
    ensures |heads| <= |bs|
    ensures (forall i :: 0 <= i < |bs| ==> bs[i].1 != []) ==>
      |heads| == |bs| && forall i :: 0 <= i < |bs| ==> heads[i] == bs[i].1[0].id
  {
    if bs == [] then []
    else (if bs[0].1 != [] then [bs[0].1[0].id] else []) + BucketHeads(bs[1..])
  }

  /** With k representatives, the k - 1 links between neighbours; none when k <= 1. */
  function OrderingPairs(heads: seq<string>): (pairs: seq<(string, string)>)
    ensures |pairs| == if |heads| <= 1 then 0 else |heads| - 1
    ensures forall i :: 0 <= i < |pairs| ==> pairs[i] == (heads[i], heads[i + 1])
  {
    if |heads| <= 1 then [] else [(heads[0], heads[1])] + OrderingPairs(heads[1..])
  }

  // ------------------------------------------------ VM/storage alignment

  /** `s.replace('-', '').replace('_', '')` on a lower-cased name. */
  function CleanName(name: string): string {
    RemoveChar(RemoveChar(name, '-'), '_')
  }

  /** Whether a storage resource is taken to belong to a VM, by the names' likeness. */
  predicate NameMatch(vmName: string, storageName: string) {
    var vc := CleanName(vmName);
    var sc := CleanName(storageName);
    || vmName == storageName
    || vc == sc
    || Contains(sc, vc)
    || StartsWith(sc, vc)
    || (|vc| >= 4 && Contains(sc, vc[..4]))
  }

  lemma RemoveCharConcat(a: string, b: string, c: char)
    ensures RemoveChar(a + b, c) == RemoveChar(a, c) + RemoveChar(b, c)
  {
    if a != [] {
      RemoveCharConcat(a[1..], b, c);
      assert (a + b)[1..] == a[1..] + b;
    } else {
      assert a + b == b;
    }
  }

  /** A storage name that extends the VM's name, as an OS disk's `<vm>_OsDisk_…` does, is aligned with it. */
  lemma ExtendedNameMatches(vmName: string, suffix: string)
    ensures NameMatch(vmName, vmName + suffix)
  {
    RemoveCharConcat(vmName, suffix, '-');
    RemoveCharConcat(RemoveChar(vmName, '-'), RemoveChar(suffix, '-'), '_');
    var vc := CleanName(vmName);
    var sc := CleanName(vmName + suffix);
    assert sc == vc + CleanName(suffix);
    assert sc[..|vc|] == vc;
  }

  function NameKey(m: Member): string {
    Lower(TextAttr(m.data, "name", ""))
  }

  function VmMembers(ms: seq<Member>): (vms: seq<Member>)
    ensures forall m :: m in vms <==> m in ms && IsVm(m)
  {
    if ms == [] then []
    else
      var rest := VmMembers(ms[1..]);
      assert forall m :: m in ms <==> m == ms[0] || m in ms[1..];
      (if IsVm(ms[0]) then [ms[0]] else []) + rest
  }

  function StorageMembers(ms: seq<Member>): (ss: seq<Member>)
    ensures forall m :: m in ss <==> m in ms && IsStorage(m) && !IsVm(m)
  {
    if ms == [] then []
    else
      var rest := StorageMembers(ms[1..]);
      assert forall m :: m in ms <==> m == ms[0] || m in ms[1..];
      (if !IsVm(ms[0]) && IsStorage(ms[0]) then [ms[0]] else []) + rest
  }

  /** The storage of one VM, in storage order. */
  function AlignedWith(vm: Member, storage: seq<Member>): (pairs: seq<(string, string)>)
    ensures forall p :: p in pairs ==> p.0 == vm.id && exists s :: s in storage && s.id == p.1 && NameMatch(NameKey(vm), NameKey(s))
  {
    if storage == [] then []
    else
      var rest := AlignedWith(vm, storage[1..]);
      assert forall s :: s in storage[1..] ==> s in storage;
      (if NameMatch(NameKey(vm), NameKey(storage[0])) then [(vm.id, storage[0].id)] else []) + rest
  }

  function AlignmentPairs(vms: seq<Member>, storage: seq<Member>): (pairs: seq<(string, string)>)
    ensures forall p :: p in pairs ==> exists v, s :: v in vms && s in storage && p == (v.id, s.id)
  {
    if vms == [] then []
    else
      var first := AlignedWith(vms[0], storage);
      var rest := AlignmentPairs(vms[1..], storage);
      assert forall v :: v in vms[1..] ==> v in vms;
      first + rest
  }

  /**
   * Every alignment edge of a cluster runs from one of its VMs to one of its
   * disks or storage accounts.
   */
  lemma AlignmentEdgesTyped(ms: seq<Member>)
    ensures forall p :: p in AlignmentPairs(VmMembers(ms), StorageMembers(ms)) ==>
      exists v, s :: v in ms && s in ms && IsVm(v) && IsStorage(s) && p == (v.id, s.id)
  { }

  // ------------------------------------------------------------- clusters

  /** `subgraph_name.replace("cluster_", "")`. */
  function CleanClusterName(key: string): string {
    ReplaceAll(key, "cluster_", "")
  }

  function TitleId(key: string): string {
    "title_" + CleanClusterName(key)
  }

  function TitleLines(theme: ThemeConfig, key: string, c: Cluster): seq<string> {
    ["        // Resource group title (external, left-justified)",
     "        \"" + TitleId(key) + "\" [",
     "            label=\"" + c.caption + "\",",
     "            shape=\"plaintext\",",
     "            fontsize=\"10\",",
     "            fontcolor=\"" + theme.fontColor + "\",",
     "            height=\"0.3\",",
     "            width=\"3.0\",",
     "            margin=\"0\",",
     "            labeljust=\"l\"",
     "        ];",
     ""]
  }

  function SubgraphOpenLines(theme: ThemeConfig, key: string, c: Cluster): seq<string> {
    ["        subgraph \"cluster_" + CleanClusterName(key) + "\" {",
     "            label=\"\";",
     "            style=\"" + c.style + "\";",
     "            fillcolor=\"" + c.fillColor + "\";",
     "            fontcolor=\"" + theme.fontColor + "\";",
     "            rankdir=\"LR\";",
     "            margin=\"1\";",
     ""]
  }

  function NodeLines(theme: ThemeConfig, ms: seq<Member>, html: HtmlLabels): (lines: seq<string>)
    ensures |lines| == |ms|
  {
    if ms == [] then [] else ["            " + NodeLine(theme, ms[0].id, ms[0].data, html)] + NodeLines(theme, ms[1..], html)
  }

  /** One bucket: a comment, its node definitions, its `rank=same` group when non-empty, a blank line. */
  function BucketLines(theme: ThemeConfig, b: (int, seq<Member>), html: HtmlLabels): seq<string> {
    var ids := RankIds(b.1);
    ["            // Priority " + IntToString(b.0) + " resources"]
    + NodeLines(theme, b.1, html)
    + (if ids != [] then ["            " + RankSame(ids)] else [])
    + [""]
  }

  function AllBucketLines(theme: ThemeConfig, bs: seq<(int, seq<Member>)>, html: HtmlLabels): seq<string> {
    if bs == [] then [] else BucketLines(theme, bs[0], html) + AllBucketLines(theme, bs[1..], html)
  }

  function InvisibleEdge(a: string, b: string, weight: string, minlen: bool): string {
    "\"" + a + "\" -> \"" + b + "\" [style=invis, weight=" + weight + (if minlen then ", minlen=1" else "") + "];"
  }

  function EdgeLinesOf(indent: string, pairs: seq<(string, string)>, weight: string, minlen: bool): (lines: seq<string>)
    ensures |lines| == |pairs|
    ensures forall i :: 0 <= i < |pairs| ==> lines[i] == indent + InvisibleEdge(pairs[i].0, pairs[i].1, weight, minlen)
  {
    if pairs == [] then []
    else [indent + InvisibleEdge(pairs[0].0, pairs[0].1, weight, minlen)] + EdgeLinesOf(indent, pairs[1..], weight, minlen)
  }

  /** The ordering edges between the first nodes of neighbouring buckets. */
  function OrderingLines(bs: seq<(int, seq<Member>)>): seq<string> {
    var pairs := OrderingPairs(BucketHeads(bs));
    if |bs| > 1 then ["", "            // Invisible ordering edges to force left-to-right layout"]
      + EdgeLinesOf("            ", pairs, "100", false)
    else []
  }

  /** The members in bucket order, as the alignment pass visits them. */
  function ClusterMembers(g: DiGraph, c: Cluster): seq<Member> {
    Flatten(Buckets(PresentMembers(g, c.members), PriorityLevels))
  }

  function AlignmentLines(ms: seq<Member>): seq<string> {
    ["", "            // VM-Storage inline horizontal placement"]
    + EdgeLinesOf("            ", AlignmentPairs(VmMembers(ms), StorageMembers(ms)), "1000", true)
  }

  /** One resource group: its title node, then its subgraph. */
  function ClusterLines(theme: ThemeConfig, g: DiGraph, key: string, c: Cluster, html: HtmlLabels): seq<string> {
    var bs := Buckets(PresentMembers(g, c.members), PriorityLevels);
    TitleLines(theme, key, c) + SubgraphOpenLines(theme, key, c)
    + AllBucketLines(theme, bs, html) + OrderingLines(bs) + AlignmentLines(Flatten(bs))
    + ["        }", ""]
  }

  function AllClusterLines(theme: ThemeConfig, g: DiGraph, subgraphs: OMap<string, Cluster>, html: HtmlLabels): seq<string> {
    if subgraphs == [] then []
    else ClusterLines(theme, g, subgraphs[0].0, subgraphs[0].1, html) + AllClusterLines(theme, g, subgraphs[1..], html)
  }

  // ------------------------------------------------------ title placement

  /**
   * The id the title is tied to: the node-id formula applied again to the
   * first member's category, name and type attributes.
   */
  function FormattedId(data: OMap<string, Value>): string {
    NodeIdOf(TextAttr(data, "category", ""), TextAttr(data, "name", ""), TextAttr(data, "resource_type", ""))
  }

  /** The first member that is a node of the graph, re-identified through its attributes. */
  function TitleAnchor(g: DiGraph, members: seq<string>): (anchor: Option<string>)
    ensures anchor.Some? <==> exists m :: m in members && m in Keys(g.nodes)
  {
    if members == [] then None
    else if members[0] in Keys(g.nodes) then Some(FormattedId(Get(g.nodes, members[0]).value))
    else
      var rest := TitleAnchor(g, members[1..]);
      assert forall m :: m in members <==> m == members[0] || m in members[1..];
      rest
  }

  predicate Positioned(g: DiGraph, e: (string, Cluster)) {
    TitleAnchor(g, e.1.members).Some?
  }

  function PositionOf(g: DiGraph, e: (string, Cluster)): (string, string)
    requires Positioned(g, e)
  {
    (TitleId(e.0), TitleAnchor(g, e.1.members).value)
  }

  /** One (title, anchor) pair per cluster that has a node in the graph, in cluster order. */
  function TitlePositions(g: DiGraph, subgraphs: OMap<string, Cluster>): (pairs: seq<(string, string)>)
    ensures |pairs| <= |subgraphs|
  {
    if subgraphs == [] then []
    else (if Positioned(g, subgraphs[0]) then [PositionOf(g, subgraphs[0])] else []) + TitlePositions(g, subgraphs[1..])
  }

  /** A title is positioned exactly for the clusters that have a node in the graph. */
  lemma {:induction false} TitlePositionsExact(g: DiGraph, subgraphs: OMap<string, Cluster>)
    ensures forall e :: e in subgraphs && Positioned(g, e) ==> PositionOf(g, e) in TitlePositions(g, subgraphs)
    ensures forall p :: p in TitlePositions(g, subgraphs) ==>
      exists e :: e in subgraphs && Positioned(g, e) && p == PositionOf(g, e)
  {
    if subgraphs != [] {
      TitlePositionsExact(g, subgraphs[1..]);
      assert forall e :: e in subgraphs <==> e == subgraphs[0] || e in subgraphs[1..];
    }
  }

  /** For a node carrying its builder fields, the re-derived anchor is the node's own id. */
  lemma FormattedIdOfBuiltNode(r: Resource, data: OMap<string, Value>)
    requires Get(data, "category") == Some(VStr(r.category))
    requires Get(data, "name") == Some(VStr(r.name))
    requires Get(data, "resource_type") == Some(VStr(r.resourceType))
    ensures FormattedId(data) == NodeId(r)
  { }

  /**
   * A node the graph created only as an edge end has no attributes, and its
   * title is tied to the id "__", which names no node.
   */
  lemma FormattedIdOfBareNode()
    ensures FormattedId([]) == "__"
  {
    assert TypeSuffix("") == "" by {
      SplitNoSeparator("", '/');
    }
  }

  function TitleRankLines(titles: seq<string>): seq<string> {
    if |titles| > 1 then ["        " + RankSame(titles)] else []
  }

  function Firsts(pairs: seq<(string, string)>): (r: seq<string>)
    ensures |r| == |pairs|
    ensures forall i :: 0 <= i < |pairs| ==> r[i] == pairs[i].0
  {
    if pairs == [] then [] else [pairs[0].0] + Firsts(pairs[1..])
  }

  /** `_generate_subgraphs_with_container`: nothing without clusters. */
  function ClusterSection(theme: ThemeConfig, g: DiGraph, subgraphs: OMap<string, Cluster>, html: HtmlLabels): string {
    if subgraphs == [] then ""
    else
      var positions := TitlePositions(g, subgraphs);
      var lines :=
        ["    subgraph cluster_main {", "        label=\"Azure Resources\";", "        style=\"dashed\";",
         "        color=\"gray\";", "        margin=\"2\";", ""]
        + AllClusterLines(theme, g, subgraphs, html)
        + ["", "        // Position external resource group titles"]
        + TitleRankLines(Firsts(positions))
        + EdgeLinesOf("        ", positions, "100", true)
        + ["    }"];
      Join(lines, "\n")
  }

  /** The section is empty exactly when there are no clusters. */
  lemma ClusterSectionEmptyIff(theme: ThemeConfig, g: DiGraph, subgraphs: OMap<string, Cluster>, html: HtmlLabels)
    ensures ClusterSection(theme, g, subgraphs, html) == "" <==> subgraphs == []
    ensures subgraphs != [] ==> StartsWith(ClusterSection(theme, g, subgraphs, html), "    subgraph cluster_main {")
  {
    if subgraphs != [] {
      var positions := TitlePositions(g, subgraphs);
      var lines :=
        ["    subgraph cluster_main {", "        label=\"Azure Resources\";", "        style=\"dashed\";",
         "        color=\"gray\";", "        margin=\"2\";", ""]
        + AllClusterLines(theme, g, subgraphs, html)
        + ["", "        // Position external resource group titles"]
        + TitleRankLines(Firsts(positions))
        + EdgeLinesOf("        ", positions, "100", true)
        + ["    }"];
      JoinStartsWith(lines, "\n");
    }
  }

  /** The titles share a `rank=same` group only when there are at least two of them. */
  lemma TitleRankOnlyForSeveral(titles: seq<string>)
    ensures |TitleRankLines(titles)| == 1 <==> |titles| > 1
  { }

  /**
   * The first title found in the section text is that of the first cluster:
   * it is the first id quoted after the container's own attribute lines.
   */
  function FirstTitle(subgraphs: OMap<string, Cluster>): Option<string> {
    if subgraphs == [] then None else Some(TitleId(subgraphs[0].0))
  }
}
