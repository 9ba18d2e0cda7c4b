// The blob data source: the storage container is made to exist first (check,
// then create), then a data-source connection named after the index is submitted,
// pointing at the storage account by resource id and detecting changes by
// last-modified time and deletions by a soft-delete marker.
module DataSource {
  import opened Common
  import opened Paths
  import Naming

  // ---------------------------------------------------------------------------
  // The storage account's containers

  /** A call on the container client, with the storage credential the blob client was built with. */
  datatype BlobCall =
    | ExistsCall(credential: Option<string>, container: string)
    | CreateContainerCall(credential: Option<string>, container: string)

  /** What the storage service does on each call: answer, or raise the given error. */
  datatype BlobFaults = BlobFaults(onExists: Option<string>, onCreate: Option<string>)

  /** The containers of one storage account, and the calls made on it so far. */
  class ContainerStore {
    var containers: set<string>
    var log: seq<BlobCall>

    constructor (initial: set<string>)
      ensures containers == initial && log == []
    {
      containers := initial;
      log := [];
    }

    /** ContainerClient.exists(). */
    method Exists(credential: Option<string>, name: string, fault: Option<string>) returns (r: Outcome, found: bool)
      modifies this
      ensures containers == old(containers)
      ensures log == old(log) + [ExistsCall(credential, name)]
      ensures r == (if fault.Some? then Raised(fault.value) else Done)
      ensures r.Done? ==> found == (name in containers)
    {
      log := log + [ExistsCall(credential, name)];
      if fault.Some? {
        r, found := Raised(fault.value), false;
      } else {
        r, found := Done, name in containers;
      }
    }

    /** ContainerClient.create_container(). */
    method CreateContainer(credential: Option<string>, name: string, fault: Option<string>) returns (r: Outcome)
      modifies this
      ensures log == old(log) + [CreateContainerCall(credential, name)]
      ensures r == (if fault.Some? then Raised(fault.value) else Done)
      ensures containers == (if fault.Some? then old(containers) else old(containers) + {name})
    {
      log := log + [CreateContainerCall(credential, name)];
      if fault.Some? {
        r := Raised(fault.value);
      } else {
        r := Done;
        containers := containers + {name};
      }
    }
  }

  /**
   * ensure_container_exists: create the container only if the check says it is
   * missing; any error from either call is logged and raised again.
   */
  method EnsureContainerExists(store: ContainerStore, name: string, credential: Option<string>, faults: BlobFaults)
    returns (r: Outcome)
    modifies store
    ensures r.Done? ==> name in store.containers
    ensures forall c :: c != name ==> (c in store.containers <==> c in old(store.containers))
    ensures store.containers <= old(store.containers) + {name}
    ensures faults.onExists.Some? ==>
      && r == Raised(faults.onExists.value)
      && store.log == old(store.log) + [ExistsCall(credential, name)]
      && store.containers == old(store.containers)
    ensures faults.onExists.None? && name in old(store.containers) ==>
      && r == Done
      && store.log == old(store.log) + [ExistsCall(credential, name)]
      && store.containers == old(store.containers)
    ensures faults.onExists.None? && name !in old(store.containers) ==>
      && store.log == old(store.log) + [ExistsCall(credential, name), CreateContainerCall(credential, name)]
      && r == (if faults.onCreate.Some? then Raised(faults.onCreate.value) else Done)
      && (faults.onCreate.Some? ==> store.containers == old(store.containers))
      && (faults.onCreate.None? ==> store.containers == old(store.containers) + {name})
  {
    var found;
    r, found := store.Exists(credential, name, faults.onExists);
    if r.Raised? {
      return;
    }
    if !found {
      r := store.CreateContainer(credential, name, faults.onCreate);
    }
  }

  // ---------------------------------------------------------------------------
  // The data-source connection

  datatype HighWaterMarkPolicy = HighWaterMarkPolicy(highWaterMarkColumnName: string)
  datatype SoftDeletePolicy = SoftDeletePolicy(softDeleteColumnName: string, softDeleteMarkerValue: string)

  datatype DataSourceDef = DataSourceDef(
    name: string,
    sourceType: string,
    connectionString: string,
    container: string,
    changeDetection: HighWaterMarkPolicy,
    deletionDetection: SoftDeletePolicy)

  /** The arguments create_data_source reads. */
  datatype DataSourceArgs = DataSourceArgs(
    searchEndpoint: string,
    indexName: string,
    subscriptionId: string,
    resourceGroupName: string,
    storageAccountName: string,
    storageAccountUrl: string,
    containerName: string)

  const ResourceIdPrefix: string := "ResourceId="

  /** The segments of the storage account's resource path. */
  function ResourceSegments(subscription: string, resourceGroup: string, account: string): Path {
    ["subscriptions", subscription, "resourceGroups", resourceGroup,
     "providers", "Microsoft.Storage", "storageAccounts", account]
  }

  /** The resource-id connection string the search service uses with its managed identity. */
  function ConnectionString(subscription: string, resourceGroup: string, account: string): string {
    "ResourceId=/subscriptions/" + subscription + "/resourceGroups/" + resourceGroup
      + "/providers/Microsoft.Storage/storageAccounts/" + account
  }

  /** Reads the three names back out of a connection string. */
  function ParseConnectionString(s: string): Option<(string, string, string)> {
    if |s| < |ResourceIdPrefix| || s[..|ResourceIdPrefix|] != ResourceIdPrefix then None
    else
      match Parse(s[|ResourceIdPrefix|..])
      case None => None
      case Some(p) =>
        if |p| == 8 && p[0] == "subscriptions" && p[2] == "resourceGroups" && p[4] == "providers"
           && p[5] == "Microsoft.Storage" && p[6] == "storageAccounts"
        then Some((p[1], p[3], p[7]))
        else None
  }

  // Helpers that take the literal pieces of the connection string apart one
  // separator at a time, so that no step compares long literals.

  lemma RenderEight(x1: string, x2: string, x3: string, x4: string, x5: string, x6: string, x7: string, x8: string)
    ensures Render([x1, x2, x3, x4, x5, x6, x7, x8])
      == "/" + x1 + ("/" + x2 + ("/" + x3 + ("/" + x4 + ("/" + x5 + ("/" + x6 + ("/" + x7 + ("/" + x8)))))))
  {
    var p := [x1, x2, x3, x4, x5, x6, x7, x8];
    assert Render(p[8..]) == "" by { assert p[8..] == []; }
    assert Render(p[7..]) == "/" + x8 + Render(p[8..]);
    assert Render(p[6..]) == "/" + x7 + Render(p[7..]);
    assert Render(p[5..]) == "/" + x6 + Render(p[6..]);
    assert Render(p[4..]) == "/" + x5 + Render(p[5..]);
    assert Render(p[3..]) == "/" + x4 + Render(p[4..]);
    assert Render(p[2..]) == "/" + x3 + Render(p[3..]);
    assert Render(p[1..]) == "/" + x2 + Render(p[2..]);
  }

  lemma Regroup(pre: string, sl: string, x1: string, s: string, x2: string, r: string, x3: string, x4: string, x5: string, a: string)
    ensures pre + (sl + x1 + (sl + s + (sl + x2 + (sl + r + (sl + x3 + (sl + x4 + (sl + x5 + (sl + a))))))))
      == (pre + sl + x1 + sl) + s + (sl + x2 + sl) + r + (sl + x3 + sl + x4 + sl + x5 + sl) + a
  {
  }

  lemma AccountPathLiteral()
    ensures "/" + "providers" + "/" + "Microsoft.Storage" + "/" + "storageAccounts" + "/"
         == "/providers/Microsoft.Storage/storageAccounts/"
  {
    assert "/" + "providers" + "/" == "/providers/";
    assert "/providers/" + "Microsoft.Storage" + "/" == "/providers/Microsoft.Storage/";
    assert "/providers/Microsoft.Storage/" + "storageAccounts" + "/" == "/providers/Microsoft.Storage/storageAccounts/";
  }

  /** The connection string is "ResourceId=" followed by the account's resource path in slash form. */
  lemma ConnectionStringIsResourcePath(subscription: string, resourceGroup: string, account: string)
    ensures ConnectionString(subscription, resourceGroup, account)
         == ResourceIdPrefix + Render(ResourceSegments(subscription, resourceGroup, account))
  {
    RenderEight("subscriptions", subscription, "resourceGroups", resourceGroup,
                "providers", "Microsoft.Storage", "storageAccounts", account);
    Regroup(ResourceIdPrefix, "/", "subscriptions", subscription, "resourceGroups", resourceGroup,
            "providers", "Microsoft.Storage", "storageAccounts", account);
    assert ResourceIdPrefix + "/" + "subscriptions" + "/" == "ResourceId=/subscriptions/";
    assert "/" + "resourceGroups" + "/" == "/resourceGroups/";
    AccountPathLiteral();
  }

  /** For names without a slash, the connection string determines the three names. */
  lemma ConnectionStringRoundTrip(subscription: string, resourceGroup: string, account: string)
    requires '/' !in subscription && '/' !in resourceGroup && '/' !in account
    ensures ParseConnectionString(ConnectionString(subscription, resourceGroup, account))
         == Some((subscription, resourceGroup, account))
  {
    var p := ResourceSegments(subscription, resourceGroup, account);
    ConnectionStringIsResourcePath(subscription, resourceGroup, account);
    assert WellFormed(p) by {
      forall i | 0 <= i < |p| ensures '/' !in p[i] {
        assert i in {1, 3, 7} || p[i] in {"subscriptions", "resourceGroups", "providers", "Microsoft.Storage", "storageAccounts"};
      }
    }
    ParseRender(p);
    var s := ConnectionString(subscription, resourceGroup, account);
    assert s[..|ResourceIdPrefix|] == ResourceIdPrefix;
    assert s[|ResourceIdPrefix|..] == Render(p);
  }

  /** The data-source connection create_data_source submits. */
  function BuildDataSource(args: DataSourceArgs): DataSourceDef {
    DataSourceDef(
      Naming.DataSourceName(args.indexName),
      "azureblob",
      ConnectionString(args.subscriptionId, args.resourceGroupName, args.storageAccountName),
      args.containerName,
      HighWaterMarkPolicy("metadata_storage_last_modified"),
      SoftDeletePolicy("Status", "Deleted"))
  }

  datatype DataSourceCall = CreateOrUpdateDataSourceConnection(credential: Credential, dataSource: DataSourceDef)

  /** One step of create_data_source, on the storage account or on the search service. */
  datatype DataSourceEvent = StorageStep(blob: BlobCall) | SearchStep(call: DataSourceCall)

  function StorageSteps(blobs: seq<BlobCall>): seq<DataSourceEvent> {
    seq(|blobs|, i requires 0 <= i < |blobs| => StorageStep(blobs[i]))
  }

  /**
   * What follows a successful ensure: the keyed submission of the connection, or
   * nothing when AZURE_SEARCH_KEY is unset and the credential raises.
   */
  function Submission(args: DataSourceArgs, env: Env): seq<DataSourceEvent> {
    if env.searchKey.Some? then
      [SearchStep(CreateOrUpdateDataSourceConnection(KeyCredential(env.searchKey.value), BuildDataSource(args)))]
    else []
  }

  /** The outcome of that last step: the service's answer, or the credential's TypeError. */
  function SubmissionOutcome(args: DataSourceArgs, env: Env, respond: DataSourceCall -> Outcome): Outcome {
    if env.searchKey.Some? then
      respond(CreateOrUpdateDataSourceConnection(KeyCredential(env.searchKey.value), BuildDataSource(args)))
    else Raised(KeyNotString)
  }

  /**
   * create_data_source: ensure the container with AZURE_STORAGE_KEY, then submit
   * the connection with the search key. `events` is every call made, storage and
   * search, in order. If ensuring the container raises, that error propagates and
   * nothing is submitted.
   */
  method CreateDataSource(store: ContainerStore, args: DataSourceArgs, env: Env, faults: BlobFaults,
                          respond: DataSourceCall -> Outcome)
    returns (events: seq<DataSourceEvent>, result: Outcome)
    modifies store
    ensures forall c :: c != args.containerName ==> (c in store.containers <==> c in old(store.containers))
    // exists() raised: nothing created, nothing submitted
    ensures faults.onExists.Some? ==>
      && events == [StorageStep(ExistsCall(env.storageKey, args.containerName))]
      && result == Raised(faults.onExists.value)
      && store.log == old(store.log) + [ExistsCall(env.storageKey, args.containerName)]
      && store.containers == old(store.containers)
    // the container is there already: no create, then the submission
    ensures faults.onExists.None? && args.containerName in old(store.containers) ==>
      && events == [StorageStep(ExistsCall(env.storageKey, args.containerName))] + Submission(args, env)
      && result == SubmissionOutcome(args, env, respond)
      && store.log == old(store.log) + [ExistsCall(env.storageKey, args.containerName)]
      && store.containers == old(store.containers)
    // the container is missing: create it, and submit only if that succeeded
    ensures faults.onExists.None? && args.containerName !in old(store.containers) && faults.onCreate.Some? ==>
      && events == [StorageStep(ExistsCall(env.storageKey, args.containerName)),
                    StorageStep(CreateContainerCall(env.storageKey, args.containerName))]
      && result == Raised(faults.onCreate.value)
      && store.log == old(store.log) + [ExistsCall(env.storageKey, args.containerName),
                                        CreateContainerCall(env.storageKey, args.containerName)]
      && store.containers == old(store.containers)
    ensures faults.onExists.None? && args.containerName !in old(store.containers) && faults.onCreate.None? ==>
      && events == [StorageStep(ExistsCall(env.storageKey, args.containerName)),
                    StorageStep(CreateContainerCall(env.storageKey, args.containerName))] + Submission(args, env)
      && result == SubmissionOutcome(args, env, respond)
      && store.log == old(store.log) + [ExistsCall(env.storageKey, args.containerName),
                                        CreateContainerCall(env.storageKey, args.containerName)]
      && store.containers == old(store.containers) + {args.containerName}
  {
    var before := store.log;
    result := EnsureContainerExists(store, args.containerName, env.storageKey, faults);
    events := StorageSteps(store.log[|before|..]);
    if result.Raised? {
      return;
    }
    if env.searchKey.None? {
      result := Raised(KeyNotString);
      return;
    }
    var call := CreateOrUpdateDataSourceConnection(KeyCredential(env.searchKey.value), BuildDataSource(args));
    events := events + [SearchStep(call)];
    result := respond(call);
  }

  /** The submitted connection: its name, type, container and detection policies. */
  lemma DataSourceDefinition(args: DataSourceArgs)
    ensures var d := BuildDataSource(args);
      && d.name == args.indexName + "-blob"
      && d.sourceType == "azureblob"
      && d.container == args.containerName
      && d.changeDetection.highWaterMarkColumnName == "metadata_storage_last_modified"
      && d.deletionDetection == SoftDeletePolicy("Status", "Deleted")
      && d.connectionString
         == ResourceIdPrefix + Render(ResourceSegments(args.subscriptionId, args.resourceGroupName, args.storageAccountName))
  {
    ConnectionStringIsResourcePath(args.subscriptionId, args.resourceGroupName, args.storageAccountName);
  }
}
