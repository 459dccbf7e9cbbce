/**
 * The icon manager: a map from lower-cased resource type to icon file name,
 * the lookup of an icon path (whether the file exists is a parameter), and
 * the addition of custom mappings.
 */
module Icons {
  import opened Wrappers
  import opened Text
  import opened OMaps

  /** An icon file name. */
  function Png(stem: string): (file: string)
    ensures EndsWith(file, ".png")
  {
    stem + ".png"
  }

  /** The built-in mappings: a lower-cased resource type and the stem of its PNG icon. */
  const IconStems: seq<(string, string)> := [
    ("microsoft.compute/virtualmachines", "virtualmachines"),
    ("microsoft.compute/virtualmachinescalesets", "virtualmachinescalesets"),
    ("microsoft.compute/availabilitysets", "AvailabilitySets"),
    ("microsoft.compute/disks", "Disks"),
    ("microsoft.compute/snapshots", "DiskSnapshots"),
    ("microsoft.compute/images", "VMImages"),
    ("microsoft.web/sites", "functions"),
    ("microsoft.servicefabric/clusters", "servicefabric"),
    ("microsoft.network/virtualnetworks", "virtualnetworks"),
    ("microsoft.network/virtualnetworkgateways", "virtualnetworkgateways"),
    ("microsoft.network/loadbalancers", "LoadBalancers"),
    ("microsoft.network/applicationgateways", "ApplicationGateway"),
    ("microsoft.network/networksecuritygroups", "networksecuritygroups"),
    ("microsoft.network/publicipaddresses", "publicip"),
    ("microsoft.network/routetables", "routetables"),
    ("microsoft.network/trafficmanagerprofiles", "trafficmanagerprofiles"),
    ("microsoft.network/frontdoors", "FrontDoors"),
    ("microsoft.network/connections", "Connections"),
    ("microsoft.network/networkinterfaces", "nic"),
    ("microsoft.network/networkwatchers", "NetworkWatcher"),
    ("microsoft.network/dnszones", "appservices"),
    ("microsoft.network/privateendpoints", "Connections"),
    ("microsoft.network/privatelinkservices", "Connections"),
    ("microsoft.storage/storageaccounts", "storageaccounts"),
    ("microsoft.sql/servers", "sqlservers"),
    ("microsoft.documentdb/databaseaccounts", "cosmosdb"),
    ("microsoft.cache/redis", "redis"),
    ("microsoft.containerregistry/registries", "ContainerRegistries"),
    ("microsoft.containerinstance/containergroups", "containerinstances"),
    ("microsoft.containerservice/managedclusters", "KubernetesServices"),
    ("microsoft.redhatopenshift/openshiftclusters", "KubernetesServices"),
    ("microsoft.databricks/workspaces", "databricks"),
    ("microsoft.datafactory/factories", "DataFactories"),
    ("microsoft.eventhub/namespaces", "EventHubs"),
    ("microsoft.eventhub/clusters", "EventHubClusters"),
    ("microsoft.operationalinsights/workspaces", "LogAnalyticsWorkspaces"),
    ("microsoft.datalakeanalytics/accounts", "DataLakeAnalytics"),
    ("microsoft.keyvault/vaults", "keyvaults"),
    ("microsoft.automation/automationaccounts", "automation"),
    ("microsoft.resources/resourcegroups", "ResourceGroups"),
    ("microsoft.resources/subscriptions", "Subscriptions"),
    ("microsoft.web/serverfarms", "appservices"),
    ("microsoft.cdn/profiles", "cdnprofiles"),
    ("microsoft.insights/components", "applicationinsights"),
    ("microsoft.web/connections", "APIConnections"),
    ("microsoft.media/mediaservices", "mediaservices"),
    ("microsoft.appconfiguration/configurationstores", "appconfiguration"),
    ("microsoft.managedidentity/userassignedidentities", "managedidentities")
  ]

  /** Each stem completed to its file name. */
  function WithPng(stems: seq<(string, string)>): (m: OMap<string, string>)
    ensures |m| == |stems|
    ensures forall i :: 0 <= i < |stems| ==> m[i] == (stems[i].0, Png(stems[i].1))
  {
    seq(|stems|, i requires 0 <= i < |stems| => (stems[i].0, Png(stems[i].1)))
  }

  const DefaultIconMappings: OMap<string, string> := WithPng(IconStems)

  /** Every mapped file is a PNG icon. */
  predicate AllPng(mappings: OMap<string, string>) {
    forall i :: 0 <= i < |mappings| ==> EndsWith(mappings[i].1, ".png")
  }

  lemma DefaultIconsAllPng()
    ensures AllPng(DefaultIconMappings)
  { }

  datatype IconManager = IconManager(directory: string, mappings: OMap<string, string>)

  /** A given (non-empty) directory is used, otherwise the package's icon directory. */
  function NewIconManager(directory: Option<string>, packageDirectory: string): (m: IconManager)
    ensures m.mappings == DefaultIconMappings
    ensures directory.Some? && directory.value != "" ==> m.directory == directory.value
    ensures !(directory.Some? && directory.value != "") ==> m.directory == packageDirectory
  {
    IconManager(if directory.Some? && directory.value != "" then directory.value else packageDirectory,
                DefaultIconMappings)
  }

  /**
   * `get_icon_path`: the type is lower-cased and looked up; an unmapped type
   * or an empty file name gives nothing, and a mapped file is returned only
   * when it exists.
   */
  function IconPath(m: IconManager, resourceType: string, fileExists: string -> bool): (path: Option<string>)
    ensures path.Some? <==> (
      && Get(m.mappings, Lower(resourceType)).Some?
      && Get(m.mappings, Lower(resourceType)).value != ""
      && fileExists(JoinPath(m.directory, Get(m.mappings, Lower(resourceType)).value)))
    ensures path.Some? ==> exists file :: (Lower(resourceType), file) in m.mappings && path.value == JoinPath(m.directory, file)
  {
    match Get(m.mappings, Lower(resourceType))
    case None => None
    case Some(file) =>
      if file == "" then None
      else
        var path := JoinPath(m.directory, file);
        if fileExists(path) then Some(path) else None
  }

  /** Types that differ only in case find the same icon. */
  lemma IconPathIgnoresCase(m: IconManager, a: string, b: string, fileExists: string -> bool)
    requires Lower(a) == Lower(b)
    ensures IconPath(m, a, fileExists) == IconPath(m, b, fileExists)
  { }

  /** `add_custom_mapping`: stored under the lower-cased type; every other mapping is kept. */
  function AddCustomMapping(m: IconManager, resourceType: string, file: string): (m': IconManager)
    ensures m'.directory == m.directory
    ensures Get(m'.mappings, Lower(resourceType)) == Some(file)
    ensures forall k :: k != Lower(resourceType) ==> Get(m'.mappings, k) == Get(m.mappings, k)
  {
    m.(mappings := Put(m.mappings, Lower(resourceType), file))
  }

  /** A custom mapping is found by any spelling of its type, when the file exists. */
  lemma CustomMappingFound(m: IconManager, resourceType: string, query: string, file: string,
                           fileExists: string -> bool)
    requires Lower(query) == Lower(resourceType)
    ensures var path := IconPath(AddCustomMapping(m, resourceType, file), query, fileExists);
      path == (if file != "" && fileExists(JoinPath(m.directory, file)) then Some(JoinPath(m.directory, file)) else None)
  { }

  /** With PNG mappings only, a lookup yields a `.png` path or nothing; the built-in mappings are such. */
  lemma IconPathIsPng(m: IconManager, resourceType: string, fileExists: string -> bool)
    requires AllPng(m.mappings)
    ensures var path := IconPath(m, resourceType, fileExists);
      path.Some? ==> EndsWith(path.value, ".png")
  {
    var path := IconPath(m, resourceType, fileExists);
    if path.Some? {
      var file :| (Lower(resourceType), file) in m.mappings && path.value == JoinPath(m.directory, file);
      var i :| 0 <= i < |m.mappings| && m.mappings[i] == (Lower(resourceType), file);
      assert EndsWith(file, ".png");
      assert path.value[|path.value| - 4..] == file[|file| - 4..];
    }
  }
}
