/**
 * Resource filtering ahead of graph construction: the optional compute-only
 * subsetting, then removal of every resource whose type matches an
 * exclusion pattern.
 */
module ResourceFilter {
  import opened Text
  import opened Seqs
  import opened Models

  // --------------------------------------------------- exclusion patterns

  /**
   * `_matches_pattern`. A pattern with a '*' is split on '*'; one star means
   * prefix-and-suffix matching, and any other pattern falls through to a
   * case-insensitive comparison with the whole pattern.
   */
  function MatchesPattern(resourceType: string, pattern: string): bool {
    if '*' in pattern then
      var parts := Split(Lower(pattern), '*');
      var t := Lower(resourceType);
      if |parts| == 1 then Contains(t, parts[0])
      else if |parts| == 2 then StartsWith(t, parts[0]) && EndsWith(t, parts[1])
      else t == Lower(pattern)
    else Lower(resourceType) == Lower(pattern)
  }

  /** A pattern with a '*' always splits into at least two parts: the one-part branch is dead. */
  lemma StarPatternSplitsInTwo(pattern: string)
    requires '*' in pattern
    ensures |Split(Lower(pattern), '*')| >= 2
  {
    var i :| 0 <= i < |pattern| && pattern[i] == '*';
    var a, b := pattern[..i], pattern[i + 1..];
    assert pattern == a + ['*'] + b;
    LowerConcat(a + ['*'], b);
    LowerConcat(a, ['*']);
    assert Lower(['*']) == ['*'];
    SplitConcat(Lower(a), Lower(b), '*');
  }

  /** Without a star, matching is case-insensitive equality. */
  lemma MatchesWithoutStar(resourceType: string, pattern: string)
    requires '*' !in pattern
    ensures MatchesPattern(resourceType, pattern) <==> Lower(resourceType) == Lower(pattern)
  {
  }

  /** With exactly one star, matching is a case-insensitive prefix and suffix test. */
  lemma MatchesOneStar(resourceType: string, before: string, after: string)
    requires '*' !in before && '*' !in after
    ensures MatchesPattern(resourceType, before + "*" + after)
        <==> StartsWith(Lower(resourceType), Lower(before)) && EndsWith(Lower(resourceType), Lower(after))
  {
    var p := before + "*" + after;
    assert '*' in p by { assert p[|before|] == '*'; }
    var lb, la := Lower(before), Lower(after);
    assert Lower(p) == lb + ['*'] + la by {
      LowerConcat(before + "*", after);
      LowerConcat(before, "*");
      assert Lower("*") == "*";
    }
    assert Split(Lower(p), '*') == [lb, la] by {
      LowerAbsent(before, '*');
      LowerAbsent(after, '*');
      SplitConcat(lb, la, '*');
      SplitNoSeparator(lb, '*');
      SplitNoSeparator(la, '*');
    }
  }

  /**
   * With two or more stars the code compares the type with the raw pattern,
   * star included, so no type without a star matches.
   */
  lemma MatchesTwoStars(resourceType: string, a: string, b: string, c: string)
    requires '*' !in resourceType
    ensures !MatchesPattern(resourceType, a + "*" + b + "*" + c)
  {
    var p := a + "*" + b + "*" + c;
    assert p[|a|] == '*';
    assert p == a + ['*'] + (b + "*" + c);
    assert b + "*" + c == b + ['*'] + c;
    LowerConcat(a + ['*'], b + "*" + c);
    LowerConcat(a, ['*']);
    LowerConcat(b + ['*'], c);
    LowerConcat(b, ['*']);
    assert Lower(['*']) == ['*'];
    SplitConcat(Lower(a), Lower(b + "*" + c), '*');
    SplitConcat(Lower(b), Lower(c), '*');
    assert |Split(Lower(p), '*')| >= 3;
    LowerAbsent(resourceType, '*');
    assert Lower(p)[|a|] == '*';
  }

  /** The wildcard `*subnets*` matches nothing, in particular not the subnet type. */
  lemma SubnetsWildcardMatchesNothing()
    ensures !MatchesPattern("Microsoft.Network/virtualNetworks/subnets", "*subnets*")
  {
    var t := "Microsoft.Network/virtualNetworks/subnets";
    assert "*subnets*" == "" + "*" + "subnets" + "*" + "";
    assert '*' !in t;
    MatchesTwoStars(t, "", "subnets", "");
  }

  /** Some exclusion pattern matches the type. */
  predicate Excluded(resourceType: string, patterns: set<string>) {
    exists p :: p in patterns && MatchesPattern(resourceType, p)
  }

  /** The exclusion pass of `_filter_resources`. */
  function ExcludeByPatterns(resources: seq<Resource>, patterns: set<string>): (kept: seq<Resource>)
    ensures forall x :: x in kept <==> x in resources && !Excluded(x.resourceType, patterns)
    ensures forall x :: multiset(kept)[x] == if Excluded(x.resourceType, patterns) then 0 else multiset(resources)[x]
    ensures IsSubseq(kept, resources)
  {
    if patterns == {} then
      IsSubseqRefl(resources);
      resources
    else
      var keep := (r: Resource) => !Excluded(r.resourceType, patterns);
      FilterMembers(resources, keep);
      FilterIsSubseq(resources, keep);
      forall x ensures multiset(Filter(resources, keep))[x] == if keep(x) then multiset(resources)[x] else 0 {
        FilterCount(resources, keep, x);
      }
      Filter(resources, keep)
  }

  // ---------------------------------------------------------- compute-only

  const ComputeTypes: set<string> := {
    "microsoft.compute/virtualmachines",
    "microsoft.compute/virtualmachinescalesets",
    "microsoft.compute/disks",
    "microsoft.compute/snapshots",
    "microsoft.compute/sshpublickeys",
    "microsoft.compute/galleries",
    "microsoft.compute/galleries/images",
    "microsoft.compute/galleries/images/versions",
    "microsoft.containerservice/managedclusters",
    "microsoft.redhatopenshift/openshiftclusters"
  }

  const RelatedTypes: set<string> := {
    "microsoft.network/networkinterfaces",
    "microsoft.network/publicipaddresses",
    "microsoft.network/virtualnetworks/subnets",
    "microsoft.network/networksecuritygroups",
    "microsoft.network/loadbalancers",
    "microsoft.storage/storageaccounts",
    "microsoft.managedidentity/userassignedidentities",
    "internet/gateway"
  }

  predicate IsComputeResource(r: Resource) {
    Lower(r.resourceType) in ComputeTypes
  }

  predicate IsRelatedResource(r: Resource) {
    Lower(r.resourceType) in RelatedTypes
  }

  lemma ComputeAndRelatedDisjoint(r: Resource)
    ensures !(IsComputeResource(r) && IsRelatedResource(r))
  {
  }

  /** The compute resources, in input order. */
  function ComputeOf(resources: seq<Resource>): seq<Resource> {
    Filter(resources, IsComputeResource)
  }

  predicate DistinctNames(rs: seq<Resource>) {
    forall i, j :: 0 <= i < j < |rs| ==> rs[i].name != rs[j].name
  }

  function NamesOf(rs: seq<Resource>): set<string> {
    set x | x in rs :: x.name
  }

  /** The related resources collected so far and the set of their names. */
  datatype Collected = Collected(related: seq<Resource>, names: set<string>)

  predicate Consistent(c: Collected) {
    c.names == NamesOf(c.related) && DistinctNames(c.related)
  }

  /** Adding a resource whose name is new keeps the collection consistent. */
  lemma CollectOne(c: Collected, x: Resource)
    requires Consistent(c) && x.name !in c.names
    ensures Consistent(Collected(c.related + [x], c.names + {x.name}))
  {
    assert NamesOf(c.related + [x]) == NamesOf(c.related) + {x.name} by {
      assert forall y :: y in c.related + [x] <==> y in c.related || y == x;
    }
    forall i | 0 <= i < |c.related| ensures c.related[i].name != x.name {
      assert c.related[i] in c.related;
    }
  }

  /**
   * One collection step: visit the candidates in order and append each one
   * that `keep` accepts and whose name is not yet collected.
   */
  function Collect(c: Collected, candidates: seq<Resource>, keep: Resource -> bool): (r: Collected)
    requires Consistent(c)
    ensures Consistent(r)
    ensures |r.related| >= |c.related| && r.related[..|c.related|] == c.related
    ensures forall i :: |c.related| <= i < |r.related| ==> r.related[i] in candidates && keep(r.related[i])
    ensures forall x :: x in candidates && keep(x) ==> x.name in r.names
    ensures c.names <= r.names
    decreases |candidates|
  {
    if candidates == [] then c
    else
      var x := candidates[0];
      var c' := if keep(x) && x.name !in c.names then Collected(c.related + [x], c.names + {x.name}) else c;
      assert Consistent(c') by {
        if keep(x) && x.name !in c.names {
          CollectOne(c, x);
        }
      }
      var r := Collect(c', candidates[1..], keep);
      assert r.related[..|c.related|] == r.related[..|c'.related|][..|c.related|];
      assert forall y :: y in candidates <==> y == x || y in candidates[1..];
      r
  }

  /** The resources named `n`, in input order. */
  function Named(resources: seq<Resource>, n: string): (r: seq<Resource>)
    ensures forall x :: x in r <==> x in resources && x.name == n
  {
    var keep := (x: Resource) => x.name == n;
    FilterMembers(resources, keep);
    Filter(resources, keep)
  }

  /** Some owner lists the name of `x` among its dependencies. */
  predicate DependencyOf(x: Resource, owners: seq<Resource>) {
    exists o :: o in owners && x.name in DependencyNames(o)
  }

  /** For each owner, for each of its dependency names, the resources with that name. */
  function DependencyTargets(owners: seq<Resource>, resources: seq<Resource>): (r: seq<Resource>)
    ensures forall x :: x in r <==> x in resources && DependencyOf(x, owners)
  {
    var f := (o: Resource) => ConcatMap(DependencyNames(o), (d: string) => Named(resources, d));
    assert forall o, x :: x in f(o) <==> x in resources && x.name in DependencyNames(o) by {
      forall o, x ensures x in f(o) <==> x in resources && x.name in DependencyNames(o) {
        ConcatMapMembers(DependencyNames(o), (d: string) => Named(resources, d));
      }
    }
    ConcatMapMembers(owners, f);
    ConcatMap(owners, f)
  }

  /** The naming heuristic of step 4, on lower-cased names. */
  predicate NameRelated(vm: string, other: string) {
    || Contains(other, vm)
    || Contains(vm, other)
    || RemoveChar(vm, '-') == RemoveChar(other, '-')
    || RemoveChar(vm, '_') == RemoveChar(other, '_')
    || RemoveChar(vm, ' ') == RemoveChar(other, ' ')
    || (|Take(vm, 4)| >= 3 && StartsWith(vm, Take(vm, 4)) && StartsWith(other, Take(vm, 4)))
    || (|Take(vm, 6)| >= 3 && StartsWith(vm, Take(vm, 6)) && StartsWith(other, Take(vm, 6)))
  }

  predicate IsVirtualMachine(r: Resource) {
    Lower(r.resourceType) == "microsoft.compute/virtualmachines"
  }

  predicate IsNetworkInterface(r: Resource) {
    Lower(r.resourceType) == "microsoft.network/networkinterfaces"
  }

  predicate IsSubnet(r: Resource) {
    Lower(r.resourceType) == "microsoft.network/virtualnetworks/subnets"
  }

  /** The name of `x` looks related to the name of one of the virtual machines. */
  predicate NameRelatedToSome(x: Resource, vms: seq<Resource>) {
    exists vm :: vm in vms && NameRelated(Lower(vm.name), Lower(x.name))
  }

  /** For each virtual machine, the resources whose names look related to its name. */
  function NameMatches(vms: seq<Resource>, resources: seq<Resource>): (r: seq<Resource>)
    ensures forall x :: x in r <==> x in resources && NameRelatedToSome(x, vms)
  {
    var f := (vm: Resource) => Filter(resources, (x: Resource) => NameRelated(Lower(vm.name), Lower(x.name)));
    assert forall vm, x :: x in f(vm) <==> x in resources && NameRelated(Lower(vm.name), Lower(x.name)) by {
      forall vm, x ensures x in f(vm) <==> x in resources && NameRelated(Lower(vm.name), Lower(x.name)) {
        FilterMembers(resources, (x: Resource) => NameRelated(Lower(vm.name), Lower(x.name)));
      }
    }
    ConcatMapMembers(vms, f);
    ConcatMap(vms, f)
  }

  /** Step 1's test: a related type in a resource group that holds compute, or the Internet node. */
  predicate InComputeGroup(x: Resource, groups: set<string>) {
    IsRelatedResource(x) && (x.resourceGroup in groups || Lower(x.resourceType) == "internet/gateway")
  }

  /** Step 3's test: a related type that depends on a compute resource by name. */
  predicate DependsOnCompute(x: Resource, computeNames: set<string>) {
    IsRelatedResource(x) && exists d :: d in DependencyNames(x) && d in computeNames
  }

  /** The resource groups that hold a compute resource. */
  function ComputeGroups(resources: seq<Resource>): set<string> {
    set c | c in ComputeOf(resources) :: c.resourceGroup
  }

  /** The names of the compute resources. */
  function ComputeNames(resources: seq<Resource>): set<string> {
    set c | c in ComputeOf(resources) :: c.name
  }

  /**
   * The tests of steps 1 to 4: a related type that shares a resource group
   * with compute (or is the Internet node), is a dependency of a compute
   * resource, depends on a compute resource, or is named like a virtual machine.
   */
  predicate SelectedByStep1To4(x: Resource, resources: seq<Resource>) {
    || InComputeGroup(x, ComputeGroups(resources))
    || (IsRelatedResource(x) && DependencyOf(x, ComputeOf(resources)))
    || DependsOnCompute(x, ComputeNames(resources))
    || (IsRelatedResource(x) && NameRelatedToSome(x, Filter(ComputeOf(resources), IsVirtualMachine)))
  }

  /** Step 5's test: a subnet that one of the collected network interfaces depends on. */
  predicate SubnetOfCollectedNic(x: Resource, related: seq<Resource>) {
    IsSubnet(x) && DependencyOf(x, Filter(related, IsNetworkInterface))
  }

  predicate AllRelatedFrom(rs: seq<Resource>, resources: seq<Resource>) {
    forall x :: x in rs ==> x in resources && IsRelatedResource(x)
  }

  /** A collection step adds only candidates that `keep` accepts. */
  lemma CollectedFrom(c: Collected, candidates: seq<Resource>, keep: Resource -> bool)
    requires Consistent(c)
    ensures forall x :: x in Collect(c, candidates, keep).related ==> x in c.related || (x in candidates && keep(x))
  {
    var r := Collect(c, candidates, keep);
    forall x | x in r.related ensures x in c.related || (x in candidates && keep(x)) {
      var i :| 0 <= i < |r.related| && r.related[i] == x;
      if i < |c.related| {
        assert x == r.related[..|c.related|][i];
      }
    }
  }

  /** A collection step over candidates drawn from `resources` keeps every collected resource related. */
  lemma CollectRelated(c: Collected, candidates: seq<Resource>, keep: Resource -> bool, resources: seq<Resource>)
    requires Consistent(c) && AllRelatedFrom(c.related, resources)
    requires forall x :: x in candidates ==> x in resources
    requires forall x :: keep(x) ==> IsRelatedResource(x)
    ensures AllRelatedFrom(Collect(c, candidates, keep).related, resources)
  {
    CollectedFrom(c, candidates, keep);
  }

  /** The five collection steps of the compute-only filter. */
  function Stage1(resources: seq<Resource>): Collected {
    Collect(Collected([], {}), resources, (x: Resource) => InComputeGroup(x, ComputeGroups(resources)))
  }

  function Stage2(resources: seq<Resource>): Collected {
    Collect(Stage1(resources), DependencyTargets(ComputeOf(resources), resources), IsRelatedResource)
  }

  function Stage3(resources: seq<Resource>): Collected {
    Collect(Stage2(resources), resources, (x: Resource) => DependsOnCompute(x, ComputeNames(resources)))
  }

  function Stage4(resources: seq<Resource>): Collected {
    Collect(Stage3(resources), NameMatches(Filter(ComputeOf(resources), IsVirtualMachine), resources), IsRelatedResource)
  }

  function Stage5(resources: seq<Resource>): Collected {
    Step5(Stage4(resources), resources)
  }

  /** Every stage starts from the previous one and keeps the names it had. */
  lemma StagesGrow(resources: seq<Resource>)
    ensures Stage1(resources).names <= Stage2(resources).names <= Stage3(resources).names
    ensures Stage3(resources).names <= Stage4(resources).names <= Stage5(resources).names
    ensures Consistent(Stage5(resources))
  {
  }

  /** Steps 1 to 4 admit only resources that pass one of their tests. */
  lemma Stage4Sound(resources: seq<Resource>)
    ensures forall x :: x in Stage4(resources).related ==> x in resources && SelectedByStep1To4(x, resources)
  {
    var compute := ComputeOf(resources);
    var vms := Filter(compute, IsVirtualMachine);
    var c0 := Collected([], {});
    CollectedFrom(c0, resources, (x: Resource) => InComputeGroup(x, ComputeGroups(resources)));
    CollectedFrom(Stage1(resources), DependencyTargets(compute, resources), IsRelatedResource);
    CollectedFrom(Stage2(resources), resources, (x: Resource) => DependsOnCompute(x, ComputeNames(resources)));
    CollectedFrom(Stage3(resources), NameMatches(vms, resources), IsRelatedResource);
  }

  /** Step 5 over any earlier collection: visit the subnets its network interfaces depend on. */
  function Step5(c: Collected, resources: seq<Resource>): (r: Collected)
    requires Consistent(c)
    ensures Consistent(r)
  {
    Collect(c, DependencyTargets(Filter(c.related, IsNetworkInterface), resources), IsSubnet)
  }

  /** Step 5 adds subnets only, so it keeps the earlier collection and adds no network interface. */
  lemma Step5Interfaces(c: Collected, resources: seq<Resource>)
    requires Consistent(c)
    ensures forall n :: n in Step5(c, resources).related && IsNetworkInterface(n) ==> n in c.related
    ensures forall x :: x in c.related ==> x in Step5(c, resources).related
  {
    var r := Step5(c, resources);
    CollectedFrom(c, DependencyTargets(Filter(c.related, IsNetworkInterface), resources), IsSubnet);
    forall x | x in c.related ensures x in r.related {
      var i :| 0 <= i < |c.related| && c.related[i] == x;
      assert r.related[..|c.related|][i] == x;
    }
  }

  /** Step 5 adds only subnets of the network interfaces it ends with. */
  lemma Step5Sound(c: Collected, resources: seq<Resource>)
    requires Consistent(c)
    ensures forall x :: x in Step5(c, resources).related ==>
      x in c.related || SubnetOfCollectedNic(x, Step5(c, resources).related)
  {
    var r := Step5(c, resources);
    var nics := Filter(c.related, IsNetworkInterface);
    CollectedFrom(c, DependencyTargets(nics, resources), IsSubnet);
    Step5Interfaces(c, resources);
    FilterMembers(c.related, IsNetworkInterface);
    FilterMembers(r.related, IsNetworkInterface);
    forall x | x in r.related && x !in c.related ensures SubnetOfCollectedNic(x, r.related) {
      var o :| o in nics && x.name in DependencyNames(o);
      assert o in Filter(r.related, IsNetworkInterface);
    }
  }

  /** Step 5 collects the name of every subnet of the network interfaces it ends with. */
  lemma Step5Complete(c: Collected, resources: seq<Resource>, x: Resource)
    requires Consistent(c)
    requires x in resources && SubnetOfCollectedNic(x, Step5(c, resources).related)
    ensures x.name in Step5(c, resources).names
  {
    var r := Step5(c, resources);
    var nics := Filter(c.related, IsNetworkInterface);
    Step5Interfaces(c, resources);
    FilterMembers(c.related, IsNetworkInterface);
    FilterMembers(r.related, IsNetworkInterface);
    var o :| o in Filter(r.related, IsNetworkInterface) && x.name in DependencyNames(o);
    assert o in nics;
    assert x in DependencyTargets(nics, resources);
  }

  /** Every collected resource comes from the input and has a related type. */
  lemma Stage5Related(resources: seq<Resource>)
    ensures AllRelatedFrom(Stage5(resources).related, resources)
  {
    var compute := ComputeOf(resources);
    var c4 := Stage4(resources);
    CollectRelated(Collected([], {}), resources, (x: Resource) => InComputeGroup(x, ComputeGroups(resources)), resources);
    CollectRelated(Stage1(resources), DependencyTargets(compute, resources), IsRelatedResource, resources);
    CollectRelated(Stage2(resources), resources, (x: Resource) => DependsOnCompute(x, ComputeNames(resources)), resources);
    CollectRelated(Stage3(resources), NameMatches(Filter(compute, IsVirtualMachine), resources), IsRelatedResource, resources);
    CollectRelated(c4, DependencyTargets(Filter(c4.related, IsNetworkInterface), resources), IsSubnet, resources);
  }

  /** A resource is collected only by passing one of the five tests. */
  lemma Stage5Sound(resources: seq<Resource>)
    ensures forall x :: x in Stage5(resources).related ==>
      SelectedByStep1To4(x, resources) || SubnetOfCollectedNic(x, Stage5(resources).related)
  {
    Stage4Sound(resources);
    Step5Sound(Stage4(resources), resources);
  }

  /** Every resource passing one of steps 1 to 4 has its name collected. */
  lemma Stage5CompleteSteps1To4(resources: seq<Resource>, x: Resource)
    requires x in resources && SelectedByStep1To4(x, resources)
    ensures x.name in NamesOf(Stage5(resources).related)
  {
    var compute := ComputeOf(resources);
    StagesGrow(resources);
    if InComputeGroup(x, ComputeGroups(resources)) {
      assert x.name in Stage1(resources).names;
    } else if IsRelatedResource(x) && DependencyOf(x, compute) {
      assert x in DependencyTargets(compute, resources);
      assert x.name in Stage2(resources).names;
    } else if DependsOnCompute(x, ComputeNames(resources)) {
      assert x.name in Stage3(resources).names;
    } else {
      assert x in NameMatches(Filter(compute, IsVirtualMachine), resources);
      assert x.name in Stage4(resources).names;
    }
  }

  /** Every subnet of a collected network interface has its name collected. */
  lemma Stage5CompleteStep5(resources: seq<Resource>, x: Resource)
    requires x in resources && SubnetOfCollectedNic(x, Stage5(resources).related)
    ensures x.name in NamesOf(Stage5(resources).related)
  {
    StagesGrow(resources);
    Step5Complete(Stage4(resources), resources, x);
  }

  /**
   * The related resources of the compute-only filter, steps 1 to 5 in order.
   * A resource is collected only by passing one of the five tests, and every
   * resource that passes one has its name collected (the first resource of a
   * name wins, as the code keeps a set of collected names).
   */
  function ComputeRelated(resources: seq<Resource>): (related: seq<Resource>)
    ensures AllRelatedFrom(related, resources)
    ensures DistinctNames(related)
    ensures forall x :: x in related ==> SelectedByStep1To4(x, resources) || SubnetOfCollectedNic(x, related)
    ensures forall x :: x in resources && SelectedByStep1To4(x, resources) ==> x.name in NamesOf(related)
    ensures forall x :: x in resources && SubnetOfCollectedNic(x, related) ==> x.name in NamesOf(related)
  {
    Stage5Related(resources);
    Stage5Sound(resources);
    forall x | x in resources && SelectedByStep1To4(x, resources) ensures x.name in NamesOf(Stage5(resources).related) {
      Stage5CompleteSteps1To4(resources, x);
    }
    forall x | x in resources && SubnetOfCollectedNic(x, Stage5(resources).related)
      ensures x.name in NamesOf(Stage5(resources).related)
    {
      Stage5CompleteStep5(resources, x);
    }
    Stage5(resources).related
  }

  /**
   * `_filter_compute_only`: nothing when there is no compute resource,
   * otherwise the compute resources in input order followed by the related ones.
   */
  function FilterComputeOnly(resources: seq<Resource>): (r: seq<Resource>)
    ensures r == [] <==> forall x :: x in resources ==> !IsComputeResource(x)
    ensures r != [] ==> |r| >= |ComputeOf(resources)| && r[..|ComputeOf(resources)|] == ComputeOf(resources)
    ensures r != [] ==> r[|ComputeOf(resources)|..] == ComputeRelated(resources)
    ensures forall x :: x in r ==> x in resources
  {
    var compute := ComputeOf(resources);
    FilterMembers(resources, IsComputeResource);
    if compute == [] then
      assert forall x :: x !in compute;
      []
    else
      assert compute[0] in compute;
      compute + ComputeRelated(resources)
  }

  /** Every resource after the compute prefix has a related type, hence is not compute. */
  lemma ComputeOnlyTail(resources: seq<Resource>, i: nat)
    requires |ComputeOf(resources)| <= i < |FilterComputeOnly(resources)|
    ensures IsRelatedResource(FilterComputeOnly(resources)[i])
    ensures !IsComputeResource(FilterComputeOnly(resources)[i])
  {
    var r := FilterComputeOnly(resources);
    var k := |ComputeOf(resources)|;
    RelatedTail(r, k, ComputeRelated(resources), resources);
    ComputeAndRelatedDisjoint(r[i]);
  }

  lemma RelatedTail(r: seq<Resource>, k: nat, related: seq<Resource>, resources: seq<Resource>)
    requires k <= |r| && r[k..] == related && AllRelatedFrom(related, resources)
    ensures forall i :: k <= i < |r| ==> IsRelatedResource(r[i])
  {
    forall i | k <= i < |r| ensures IsRelatedResource(r[i]) {
      assert r[i] == related[i - k];
    }
  }

  /** `_filter_resources`: compute-only subsetting first when enabled, then exclusion. */
  function FilterResources(resources: seq<Resource>, config: VisualizationConfig): (r: seq<Resource>)
    ensures var base := if config.computeOnly then FilterComputeOnly(resources) else resources;
      && IsSubseq(r, base)
      && (forall x :: x in r <==> x in base && !Excluded(x.resourceType, config.excludeTypes))
      && forall x :: multiset(r)[x] == if Excluded(x.resourceType, config.excludeTypes) then 0 else multiset(base)[x]
    ensures forall x :: x in r ==> x in resources
  {
    var base := if config.computeOnly then FilterComputeOnly(resources) else resources;
    ExcludeByPatterns(base, config.excludeTypes)
  }
}
