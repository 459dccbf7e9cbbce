/**
 * The pure parsing pieces of the Azure client: the category of a resource
 * type, the bucketing of a Network Watcher topology response into the
 * `NetworkTopology` lists, the flattening of its associations, and the power
 * state read from a VM instance view.
 */
module AzureParsing {
  import opened Wrappers
  import opened Text
  import opened Seqs
  import opened Models

  // ------------------------------------------------------------- category

  /**
   * `_extract_category`: the provider segment without its `Microsoft.`
   * prefix, title-cased; "Unknown" for an empty type or one without '/'.
   */
  function ExtractCategory(resourceType: string): (category: string)
    ensures '/' !in resourceType ==> category == "Unknown"
  {
    if resourceType == "" then "Unknown"
    else
      var parts := Split(resourceType, '/');
      assert '/' !in resourceType ==> |parts| == 1 by {
        if '/' !in resourceType {
          SplitNoSeparator(resourceType, '/');
        }
      }
      if |parts| >= 2 then Title(ReplaceAll(parts[0], "Microsoft.", ""))
      else "Unknown"
  }

  /** A provider-qualified type is categorised by its provider alone. */
  lemma {:induction false} CategoryOfProvider(provider: string, rest: string)
    requires '/' !in provider
    ensures ExtractCategory(provider + "/" + rest) == Title(ReplaceAll(provider, "Microsoft.", ""))
  {
    SplitConcat(provider, rest, '/');
    SplitNoSeparator(provider, '/');
    assert provider + "/" + rest == provider + ['/'] + rest;
  }

  lemma MicrosoftHasNoSlash()
    ensures '/' !in "Microsoft."
  { }

  /** The `Microsoft.` prefix is dropped before title-casing. */
  lemma MicrosoftProvider(name: string, rest: string)
    requires '/' !in name
    ensures ExtractCategory("Microsoft." + name + "/" + rest) == Title(ReplaceAll(name, "Microsoft.", ""))
  {
    var provider := "Microsoft." + name;
    MicrosoftHasNoSlash();
    assert '/' !in provider;
    assert "Microsoft." + name + "/" + rest == provider + "/" + rest;
    CategoryOfProvider(provider, rest);
    ReplaceAllLeading("Microsoft.", name, "");
    var stripped := ReplaceAll(name, "Microsoft.", "");
    assert ReplaceAll(provider, "Microsoft.", "") == "" + stripped == stripped;
    calc {
      ExtractCategory("Microsoft." + name + "/" + rest);
      ExtractCategory(provider + "/" + rest);
      Title(ReplaceAll(provider, "Microsoft.", ""));
      Title(stripped);
    }
  }

  lemma {:induction false} TitleKeepsLowerTail(s: string)
    requires forall i :: 0 <= i < |s| ==> IsLowerLetter(s[i])
    ensures TitleFrom(s, true) == s
  {
    if s != [] {
      TitleKeepsLowerTail(s[1..]);
      assert IsLetter(s[0]);
    }
  }

  /** A capitalised word is already in title case. */
  lemma TitleKeepsCapitalised(c: char, tail: string)
    requires IsUpper(c)
    requires forall i :: 0 <= i < |tail| ==> IsLowerLetter(tail[i])
    ensures Title([c] + tail) == [c] + tail
  {
    TitleKeepsLowerTail(tail);
    assert ([c] + tail)[1..] == tail;
  }

  // ------------------------------------------------------------- topology

  /**
   * One resource of a Network Watcher topology response. An attribute the
   * SDK object lacks is `None`.
   */
  datatype TopologyResource = TopologyResource(
    id: string,
    name: string,
    typeAttr: Option<string>,
    resourceTypeAttr: Option<string>,
    location: string,
    links: seq<AssociationLink>)

  predicate Truthy(s: Option<string>) {
    s.Some? && s.value != ""
  }

  /** The lower-cased type used for bucketing: `type`, else `resource_type`, else empty. */
  function BucketType(r: TopologyResource): string {
    if Truthy(r.typeAttr) then Lower(r.typeAttr.value)
    else if Truthy(r.resourceTypeAttr) then Lower(r.resourceTypeAttr.value)
    else ""
  }

  /** The record stored in a bucket; its type is `type` when the attribute exists at all. */
  function EntryOf(r: TopologyResource): TopologyEntry {
    var t := if r.typeAttr.Some? then r.typeAttr.value else r.resourceTypeAttr.GetOr("");
    TopologyEntry(r.id, r.name, t, r.location, r.links)
  }

  datatype Bucket = VirtualNetworks | NetworkInterfaces | PublicIps | LoadBalancers | NetworkSecurityGroups

  /** The first listed substring the type contains decides the bucket. */
  function BucketOf(lowerType: string): Option<Bucket> {
    if Contains(lowerType, "virtualnetworks") then Some(VirtualNetworks)
    else if Contains(lowerType, "networkinterfaces") then Some(NetworkInterfaces)
    else if Contains(lowerType, "publicipaddresses") then Some(PublicIps)
    else if Contains(lowerType, "loadbalancers") then Some(LoadBalancers)
    else if Contains(lowerType, "networksecuritygroups") then Some(NetworkSecurityGroups)
    else None
  }

  /** The entries of one bucket, in response order. */
  function BucketEntries(rs: seq<TopologyResource>, b: Bucket): (es: seq<TopologyEntry>)
    ensures |es| <= |rs|
    ensures forall e :: e in es <==> exists r :: r in rs && BucketOf(BucketType(r)) == Some(b) && e == EntryOf(r)
  {
    if rs == [] then []
    else
      var rest := BucketEntries(rs[1..], b);
      assert forall r :: r in rs <==> r == rs[0] || r in rs[1..];
      (if BucketOf(BucketType(rs[0])) == Some(b) then [EntryOf(rs[0])] else []) + rest
  }

  /** The resources that fall into no bucket. */
  function Unbucketed(rs: seq<TopologyResource>): nat {
    if rs == [] then 0 else (if BucketOf(BucketType(rs[0])).None? then 1 else 0) + Unbucketed(rs[1..])
  }

  function BucketTotal(rs: seq<TopologyResource>): nat {
    |BucketEntries(rs, VirtualNetworks)| + |BucketEntries(rs, NetworkInterfaces)| + |BucketEntries(rs, PublicIps)|
    + |BucketEntries(rs, LoadBalancers)| + |BucketEntries(rs, NetworkSecurityGroups)|
  }

  /** Each resource lands in exactly one bucket or in none: the buckets and the misses add up to the response. */
  lemma {:induction false} BucketsPartition(rs: seq<TopologyResource>)
    ensures BucketTotal(rs) + Unbucketed(rs) == |rs|
  {
    if rs != [] {
      BucketsPartition(rs[1..]);
    }
  }

  /** Association records, one per (resource, association) pair, in response order. */
  function FlattenAssociations(rs: seq<TopologyResource>): seq<Association> {
    if rs == [] then []
    else LinkAssociations(rs[0].id, rs[0].links) + FlattenAssociations(rs[1..])
  }

  function LinkAssociations(sourceId: string, links: seq<AssociationLink>): (out: seq<Association>)
    ensures |out| == |links|
    ensures forall i :: 0 <= i < |links| ==>
      out[i] == Association(sourceId, links[i].resourceId, links[i].associationType, links[i].name)
  {
    if links == [] then []
    else ([Association(sourceId, links[0].resourceId, links[0].associationType, links[0].name)]
          + LinkAssociations(sourceId, links[1..]))
  }

  /** Flattening distributes over concatenation, so the records keep the response order. */
  lemma {:induction false} FlattenAppend(xs: seq<TopologyResource>, ys: seq<TopologyResource>)
    ensures FlattenAssociations(xs + ys) == FlattenAssociations(xs) + FlattenAssociations(ys)
  {
    if xs != [] {
      FlattenAppend(xs[1..], ys);
      assert (xs + ys)[1..] == xs[1..] + ys;
    } else {
      assert xs + ys == ys;
    }
  }

  /** An association record comes from exactly one link of a listed resource, with that resource's id as source. */
  lemma {:induction false} FlattenMembers(rs: seq<TopologyResource>)
    ensures forall a :: a in FlattenAssociations(rs) <==>
      exists r, l :: r in rs && l in r.links && a == Association(r.id, l.resourceId, l.associationType, l.name)
  {
    if rs != [] {
      FlattenMembers(rs[1..]);
      var head := LinkAssociations(rs[0].id, rs[0].links);
      forall a ensures a in head <==> exists l :: l in rs[0].links && a == Association(rs[0].id, l.resourceId, l.associationType, l.name) {
        if a in head {
          var i :| 0 <= i < |head| && head[i] == a;
          assert rs[0].links[i] in rs[0].links;
        }
      }
      assert forall r :: r in rs <==> r == rs[0] || r in rs[1..];
    }
  }

  /** `_parse_network_topology`: an absent or empty response gives the empty topology. */
  function ParseTopology(response: Option<seq<TopologyResource>>): (t: NetworkTopology)
    ensures response.None? || response.value == [] ==> t == EmptyTopology
    ensures t.subnets == []
    ensures response.Some? && response.value != [] ==>
      && t.virtualNetworks == BucketEntries(response.value, VirtualNetworks)
      && t.networkInterfaces == BucketEntries(response.value, NetworkInterfaces)
      && t.publicIps == BucketEntries(response.value, PublicIps)
      && t.loadBalancers == BucketEntries(response.value, LoadBalancers)
      && t.networkSecurityGroups == BucketEntries(response.value, NetworkSecurityGroups)
      && t.associations == FlattenAssociations(response.value)
  {
    if response.None? || response.value == [] then EmptyTopology
    else
      var rs := response.value;
      NetworkTopology(
        BucketEntries(rs, VirtualNetworks),
        [],
        BucketEntries(rs, NetworkInterfaces),
        BucketEntries(rs, PublicIps),
        BucketEntries(rs, LoadBalancers),
        BucketEntries(rs, NetworkSecurityGroups),
        FlattenAssociations(rs))
  }

  /** A subnet type contains "virtualnetworks", so subnets are filed with the virtual networks. */
  lemma SubnetsGoWithNetworks(rest: string)
    ensures BucketOf("microsoft.network/virtualnetworks" + rest) == Some(VirtualNetworks)
  {
    var t := "microsoft.network/virtualnetworks" + rest;
    assert t[18..][..15] == "virtualnetworks";
    assert StartsWith(t[18..], "virtualnetworks");
    var k := 18;
    while k > 0
      invariant 0 <= k <= 18
      invariant Contains(t[k..], "virtualnetworks")
    {
      assert t[k - 1..][1..] == t[k..];
      k := k - 1;
    }
  }

  // ----------------------------------------------------------- power state

  const PowerStatePrefix: string := "PowerState/"

  /** The first status code that starts with `PowerState/`, as its last '/' segment. */
  function PowerState(codes: seq<Option<string>>): (state: Option<string>)
    ensures state.None? <==> forall i :: 0 <= i < |codes| ==> !(codes[i].Some? && StartsWith(codes[i].value, PowerStatePrefix))
    ensures state.Some? ==> exists i :: (
      && 0 <= i < |codes| && codes[i].Some? && StartsWith(codes[i].value, PowerStatePrefix)
      && state.value == LastSegment(codes[i].value, '/')
      && forall j :: 0 <= j < i ==> !(codes[j].Some? && StartsWith(codes[j].value, PowerStatePrefix)))
  {
    if codes == [] then None
    else if codes[0].Some? && StartsWith(codes[0].value, PowerStatePrefix) then Some(LastSegment(codes[0].value, '/'))
    else
      var rest := PowerState(codes[1..]);
      assert forall i :: 1 <= i < |codes| ==> codes[i] == codes[1..][i - 1];
      rest
  }

  /** `PowerState/running` reads as `running`. */
  lemma PowerStateReadsSuffix(state: string)
    requires '/' !in state
    ensures PowerState([Some(PowerStatePrefix + state)]) == Some(state)
  {
    assert PowerStatePrefix + state == "PowerState" + ['/'] + state;
    LastSegmentAfter("PowerState", state, '/');
    assert (PowerStatePrefix + state)[..|PowerStatePrefix|] == PowerStatePrefix;
  }
}
