// The indexer definition: it ties the blob data source, the skillset and the
// index together under the shared names, asks the blob indexer for page images
// (OCR) or raw file bytes (layout), runs on a schedule, and is started right
// after it is created.
module Indexer {
  import opened Common
  import Naming

  datatype ImageAction = GenerateNormalizedImagePerPage

  /** IndexingParametersConfiguration; None for every keyword argument left out. */
  datatype IndexingConfiguration = IndexingConfiguration(
    imageAction: Option<ImageAction>,
    allowSkillsetToReadFileData: Option<bool>,
    queryTimeout: Option<string>)

  datatype IndexingParameters = IndexingParameters(configuration: IndexingConfiguration)

  datatype Schedule = Schedule(interval: string, startTime: string)

  datatype IndexerDef = IndexerDef(
    name: string,
    description: string,
    skillsetName: string,
    targetIndexName: string,
    dataSourceName: string,
    parameters: Option<IndexingParameters>,
    schedule: Schedule)

  /**
   * The arguments create_indexer reads; --interval and --start-time are None when
   * they were not given on the command line.
   */
  datatype IndexerArgs = IndexerArgs(
    searchEndpoint: string,
    indexName: string,
    useOcr: bool,
    useDocumentLayout: bool,
    interval: Option<string>,
    startTime: Option<string>)

  const IndexerDescription: string := "Indexer to index documents and generate embeddings"

  /** The command-line defaults of --interval and --start-time. */
  const DefaultInterval: string := "PT8H"
  const DefaultStartTime: string := "2024-10-01T00:00:00Z"

  /** The schedule as argparse hands it over: each value given, or its default. */
  function ScheduleArgs(interval: Option<string>, startTime: Option<string>): Schedule {
    Schedule(
      if interval.Some? then interval.value else DefaultInterval,
      if startTime.Some? then startTime.value else DefaultStartTime)
  }

  /** The if/elif chain: images per page for OCR, else file bytes for layout, else nothing. */
  function IndexerParameters(useOcr: bool, useDocumentLayout: bool): Option<IndexingParameters> {
    if useOcr then
      Some(IndexingParameters(IndexingConfiguration(Some(GenerateNormalizedImagePerPage), None, None)))
    else if useDocumentLayout then
      Some(IndexingParameters(IndexingConfiguration(None, Some(true), None)))
    else
      None
  }

  /** The indexer definition create_indexer submits. */
  function BuildIndexer(args: IndexerArgs): IndexerDef {
    IndexerDef(
      Naming.IndexerName(args.indexName),
      IndexerDescription,
      Naming.SkillsetName(args.indexName),
      args.indexName,
      Naming.DataSourceName(args.indexName),
      IndexerParameters(args.useOcr, args.useDocumentLayout),
      ScheduleArgs(args.interval, args.startTime))
  }

  /** Which configuration the indexer asks for, OCR taking precedence over layout. */
  lemma ParametersPrecedence(useOcr: bool, useDocumentLayout: bool)
    ensures var p := IndexerParameters(useOcr, useDocumentLayout);
      && (p.Some? <==> useOcr || useDocumentLayout)
      && (p.Some? && p.value.configuration.imageAction == Some(GenerateNormalizedImagePerPage) <==> useOcr)
      && (p.Some? && p.value.configuration.allowSkillsetToReadFileData == Some(true) <==> !useOcr && useDocumentLayout)
      && (p.Some? ==> p.value.configuration.queryTimeout == None)
  {
  }

  /** The names and target follow the shared convention. */
  lemma IndexerNaming(args: IndexerArgs)
    ensures var d := BuildIndexer(args);
      && d.name == args.indexName + "-indexer"
      && d.skillsetName == args.indexName + "-skillset"
      && d.dataSourceName == args.indexName + "-blob"
      && d.targetIndexName == args.indexName
  {
  }

  /**
   * The indexer runs every eight hours from 2024-10-01 unless other values were
   * given on the command line, which are passed through unchanged.
   */
  lemma ScheduleDefaults(args: IndexerArgs)
    ensures var d := BuildIndexer(args);
      && (args.interval.None? ==> d.schedule.interval == "PT8H")
      && (args.interval.Some? ==> d.schedule.interval == args.interval.value)
      && (args.startTime.None? ==> d.schedule.startTime == "2024-10-01T00:00:00Z")
      && (args.startTime.Some? ==> d.schedule.startTime == args.startTime.value)
  {
  }

  datatype IndexerCall =
    | CreateOrUpdateIndexer(credential: Credential, indexer: IndexerDef)
    | RunIndexer(credential: Credential, name: string)

  /**
   * create_or_update_indexer with the search key, then run_indexer on the same name.
   * A raise from the first call means the run is never requested; without
   * AZURE_SEARCH_KEY the credential raises before either call.
   */
  method CreateIndexer(args: IndexerArgs, env: Env, respond: IndexerCall -> Outcome)
    returns (calls: seq<IndexerCall>, result: Outcome)
    ensures env.searchKey.None? ==> calls == [] && result == Raised(KeyNotString)
    ensures env.searchKey.Some? ==>
      && 1 <= |calls| <= 2
      && calls[0] == CreateOrUpdateIndexer(KeyCredential(env.searchKey.value), BuildIndexer(args))
      && (respond(calls[0]).Raised? ==> |calls| == 1 && result == respond(calls[0]))
      && (respond(calls[0]).Done? ==>
            && calls == [calls[0], RunIndexer(KeyCredential(env.searchKey.value), Naming.IndexerName(args.indexName))]
            && result == respond(calls[1]))
  {
    var indexer := BuildIndexer(args);
    if env.searchKey.None? {
      calls, result := [], Raised(KeyNotString);
      return;
    }
    var credential := KeyCredential(env.searchKey.value);
    var create := CreateOrUpdateIndexer(credential, indexer);
    calls := [create];
    result := respond(create);
    if result.Done? {
      var run := RunIndexer(credential, indexer.name);
      calls := calls + [run];
      result := respond(run);
    }
  }
}
