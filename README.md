# RAG indexer deployment definitions in Dafny

This project models the part of an Azure AI Search retrieval-augmented-generation indexer that can be stated without a network: the scripts that build the deployment definitions and submit them in a fixed order. There are five such scripts:

- **skillset** — builds one of three enrichment pipelines:
  - OCR: OCR, then split, then embed;
  - layout: document layout, then split, then embed;
  - plain: split, then embed.

  Skills are connected by slash paths with `*` wildcard segments. The skillset ends in an index projection that makes one index document per chunk.
- **index** — builds the search index schema: seven fixed fields plus flag-controlled `page_number` and `header_1..3`, a vector-search configuration and a semantic configuration, all named after the index. It submits the index with the signed-in identity first and with the search key if that raises.
- **indexer** — builds the indexer that links the data source, the skillset and the index. Flags select its image or file-data parameters. It creates the indexer and then starts it.
- **data source** — makes sure the blob container exists (check, then create), then submits a blob data-source connection. The connection is addressed by an ARM resource-id string and carries high-water-mark and soft-delete policies.
- **reset** — deletes the indexer, the skillset, the data source and the index, in that order, with no error handling. An entry guard on the command-line values decides whether it runs at all.

## How the model is organised

- **Paths.** Slash paths are sequences of segments: `/document/pages/*` is `["document", "pages", "*"]`. "Inside a scope" is sequence prefix. `Paths` proves that the segment form and the slash form convert into each other without loss. Two kinds of segment fact carry over to the strings. A segment prefix is a string prefix (`PrefixRendersAsPrefix`, applied to the skillsets by `Skillset.ScopedAsStrings`). Two slash-free segment paths are equal exactly when their strings are (`RenderInjective`). A segment path that is not below another can still be a string prefix of it: `/document/pages` begins `/document/pagesX`. So the "not below the chunk" facts hold of the segments only.
- **Remote calls.** Each Search SDK call the model covers is answered by an oracle `respond: Call -> Outcome`. An `Outcome` is either `Done` or `Raised(error)`. Each operation returns the log of calls it issued and what its caller sees. A Python exception that propagates is `Raised`. The two Storage calls act on `DataSource.ContainerStore`, and their faults are given up front as `BlobFaults`. `AzureKeyCredential` raises a `TypeError` when `AZURE_SEARCH_KEY` is unset. The model raises `KeyNotString` at that point, before the client it was building makes any call.
- **Environment.** Environment variables are an `Env` record of `Option<string>` values. Python's truthiness test on `os.getenv(...)` is `Truthy`: present and non-empty.
- **Container store.** The storage account's containers are a class, `DataSource.ContainerStore`, with a set of names and a call log. Its `Exists` and `CreateContainer` methods change it in place. Storage faults are parameters.
- **Cross-script facts.** Module `Consistency` holds the facts that relate the scripts to each other, which no script checks. It covers:
  - the names the scripts share;
  - which index fields a projection needs;
  - which document content the indexer hands to the skillset;
  - the embedding dimensions.

Four behaviours of the scripts shape the model:

- Only the index script has a credential fallback (`indexer/index.py:163-170`). The data source's fallback is commented out, and the skillset and indexer scripts use the key directly.
- The reset script has no `try`, so a failing delete ends the run.
- No script validates paths eagerly, so there is no configuration error. The scoping facts are proved about the built values instead.
- The first OCR skill runs per normalized image: its context is `/document/normalized_images/*`, not the document root.

## Model

| member | source | states |
|---|---|---|
| Paths.Render | indexer/datasource.py:88 | the slash form of a segment path, each segment preceded by "/"; its connection to the string form is stated by ParseRender, RenderParse, RenderInjective and RenderAppend |
| Paths.Split | indexer/datasource.py:88 | cutting a path string at every "/" yields at least one segment, and no segment contains "/" |
| Paths.Parse | indexer/datasource.py:88 | a parsed path string is a well-formed segment sequence |
| Paths.ParseRender | indexer/datasource.py:88 | reading back the slash form of a well-formed segment path gives the same segments |
| Paths.RenderSplit | indexer/datasource.py:88 | the segments cut from "/"+t render back to exactly "/"+t |
| Paths.RenderParse | indexer/datasource.py:88 | every string that parses is the slash form of its parse, so the two forms correspond one to one |
| Paths.RenderInjective | indexer/datasource.py:88 | distinct well-formed segment paths have distinct slash forms |
| Paths.RenderAppend | indexer/skillset.py:59-98 | the slash form of a path extended by segments is the slash form followed by the extension's |
| Paths.PrefixRendersAsPrefix | indexer/skillset.py:59-98 | a scope that encloses a path in segments also encloses it as a string |
| Naming.IndexerName | indexer/indexer.py:32 | the indexer's name: the index name followed by "-indexer" |
| Naming.SkillsetName | indexer/indexer.py:33 | the skillset's name: the index name followed by "-skillset" |
| Naming.DataSourceName | indexer/indexer.py:34 | the data-source connection's name: the index name followed by "-blob" |
| Naming.NamesInjective | indexer/indexer.py:32-34 | each of the -indexer, -skillset and -blob names determines the index name it came from |
| Naming.KindsNeverCollide | indexer/reset_index.py:33-35 | an indexer, a skillset and a data-source name never coincide, whatever the index names |
| Naming.DerivedNamesDifferFromIndex | indexer/reset_index.py:32-35 | none of the derived names equals the index name, so the reset deletes four different objects |
| Skillset.ServicesAccount | indexer/skillset.py:122-131 | the AI-services account: by key with AZURE_AI_SERVICE_KEY when that is set and non-empty, otherwise by identity, on the services endpoint; stated by OcrStructure and LayoutStructure |
| Skillset.CreateOcrSkillset | indexer/skillset.py:38-132 | the OCR definition; what it promises is stated by OcrStructure, OcrPathsScoped, OcrSettings and OcrChained |
| Skillset.CreateLayoutSkillset | indexer/skillset.py:134-234 | the layout definition; what it promises is stated by LayoutStructure, LayoutPathsScoped, LayoutSettings and LayoutChained |
| Skillset.CreateAiSkillset | indexer/skillset.py:236-294 | the plain definition; what it promises is stated by AiStructure, AiPathsScoped, AiSettings and AiChained |
| Skillset.CreateSkillset | indexer/skillset.py:296-307 | the definition of the selected topology; stated by CreateSkillsetConforms and Consistency.SkillsetFacts |
| Skillset.SelectTopology | indexer/skillset.py:296-307 | OCR exactly when use_ocr; layout exactly when not use_ocr and use_document_layout; plain exactly when neither |
| Skillset.OcrStructure | indexer/skillset.py:38-132 | OCR skillset: name index+"-skillset", fixed description, skills [Ocr, Split, Embed], projected fields [chunk, vector, title, page_number], AI-services account by key iff AZURE_AI_SERVICE_KEY is non-empty and by identity otherwise |
| Skillset.OcrPathsScoped | indexer/skillset.py:41-105 | OCR skillset: every skill input lies under the skill's context; every read path lies under /document; title and page_number are not under the chunk |
| Skillset.OcrSettings | indexer/skillset.py:56-113 | OCR skillset: split pages 2000/500; embedding with the configured endpoint, deployment, model, dimensions and AZURE_OPENAI_KEY; one selector on the index, parent key parent_id, skip-parent mode, source context = embedding context, chunk = that context, vector = context + vector matching the embedding output, title = blob name |
| Skillset.OcrChained | indexer/skillset.py:39-105 | OCR chain: split reads the OCR text in the image context, writes pages, embedding runs on pages/*; page_number is read on the image, an ancestor of the chunk |
| Skillset.OcrSkillsetConforms | indexer/skillset.py:38-132 | the OCR skillset conforms to the OCR topology in structure, scoping, chaining and settings |
| Skillset.LayoutStructure | indexer/skillset.py:134-234 | layout skillset: name, description, skills [Layout, Split, Embed], projected fields [chunk, vector, title, header_1, header_2, header_3], account chosen by AZURE_AI_SERVICE_KEY |
| Skillset.LayoutPathsScoped | indexer/skillset.py:140-207 | layout skillset: inputs scoped to their context, all reads under /document, title and headers not under the chunk |
| Skillset.LayoutSettings | indexer/skillset.py:150-215 | layout skillset: fixed chunking, configured embedding, chunk/vector/title projection as for OCR |
| Skillset.LayoutChained | indexer/skillset.py:135-207 | layout chain: markdownDocument written at /document, split per markdownDocument/*, embedding per pages/*; headers read on the section, an ancestor of the chunk |
| Skillset.LayoutSkillsetConforms | indexer/skillset.py:134-234 | the layout skillset conforms to the layout topology |
| Skillset.AiStructure | indexer/skillset.py:236-294 | plain skillset: name, description, skills [Split, Embed], projected fields [chunk, vector, title], no AI-services account |
| Skillset.AiPathsScoped | indexer/skillset.py:237-278 | plain skillset: inputs scoped, reads under /document, title not under the chunk |
| Skillset.AiSettings | indexer/skillset.py:237-285 | plain skillset: fixed chunking, configured embedding, chunk/vector/title projection |
| Skillset.AiChained | indexer/skillset.py:237-261 | plain chain: split at /document writes pages, embedding runs on /document/pages/* |
| Skillset.AiSkillsetConforms | indexer/skillset.py:236-294 | the plain skillset conforms to the plain topology |
| Skillset.CreateSkillsetConforms | indexer/skillset.py:296-307 | for all four flag pairs the selected skillset conforms to the selected topology |
| Skillset.ScopedAsStrings | indexer/skillset.py:41-105 | for any skillset scoped in segments, as all three builders are, each input's path string begins with its skill's context string and every read path string begins with "/document" |
| Skillset.TopologyDeterminedByKinds | indexer/skillset.py:115 | a skillset conforms to at most one topology: the chain of skill kinds identifies it |
| Skillset.OcrFlagOverridesLayout | indexer/skillset.py:299-301 | with use_ocr set, flipping use_document_layout changes nothing; the chain is [Ocr, Split, Embed] and page_number is projected |
| Skillset.PlainScenario | indexer/skillset.py:236-294 | index "docs" with no flags: skillset "docs-skillset", skills [Split, Embed], projected fields {chunk, vector, title} |
| IndexSchema.BaseFields | indexer/index.py:50-102 | the seven fixed fields; their order, key and vector settings are stated by BaseFieldOrder, SingleKeyField and VectorSearchConsistent |
| IndexSchema.IndexFields | indexer/index.py:50-119 | the field list with the flag-controlled extras; stated by FieldNamesByFlags, ExtraFieldsIff and FieldNamesDistinct |
| IndexSchema.BuildVectorSearch | indexer/index.py:122-144 | one HNSW algorithm, one profile and one Azure OpenAI vectorizer, named after the index; stated by VectorSearchConsistent |
| IndexSchema.BuildSemanticSearch | indexer/index.py:146-154 | one semantic configuration over chunk; stated by SemanticConfigConsistent |
| IndexSchema.BuildIndex | indexer/index.py:157-162 | the index named index_name with the fields, vector search and semantic search above |
| IndexSchema.AssembleFields | indexer/index.py:50-119 | the list built by append and extend is the base fields, then page_number if asked, then the three headers if asked |
| IndexSchema.BaseFieldOrder | indexer/index.py:50-102 | with neither flag the names are parent_id, title, blob_path, source_address, chunk_id, chunk, vector, in that order |
| IndexSchema.FieldNamesByFlags | indexer/index.py:104-119 | the names are the base names, then page_number iff add_page_numbers, then header_1..3 iff use_document_layout; the length is 7 + 1 + 3 by flag |
| IndexSchema.ExtraFieldsIff | indexer/index.py:104-119 | page_number is a field iff add_page_numbers; each header is a field iff use_document_layout |
| IndexSchema.FieldNamesDistinct | indexer/index.py:50-119 | field names are pairwise distinct for all four flag pairs |
| IndexSchema.SingleKeyField | indexer/index.py:79-87 | exactly one field is the key, chunk_id at position 4, with the keyword analyzer |
| IndexSchema.VectorSearchConsistent | indexer/index.py:95-144 | the vector field has the model dimensions and profile index+"HnswProfile"; that is the one profile, and it names exactly the one algorithm index+"Hnsw" and the one vectorizer index+"OpenAI" |
| IndexSchema.SemanticConfigConsistent | indexer/index.py:146-154 | one semantic configuration index+"-semantic-config" whose only content field is chunk, a field of the index |
| IndexSchema.SubmitIndex | indexer/index.py:163-170 | the first call is create_index with the CLI identity; when it succeeds it is the only call; when it raises, exactly one create_or_update_index with the search key follows and its outcome propagates, unless AZURE_SEARCH_KEY is unset, when no second call is made and the credential's TypeError is the result |
| IndexSchema.CreateIndex | indexer/index.py:30-170 | one or two calls, all carrying the built index; a second call, with the search key, exactly when the first raises and the key is set; the result is the last call's outcome, or the credential's TypeError when the first raises and the key is unset |
| Indexer.ScheduleArgs | indexer/indexer.py:97-110 | the schedule from the --interval and --start-time values, each defaulting when not given; stated about the submitted definition by ScheduleDefaults |
| Indexer.IndexerParameters | indexer/indexer.py:36-46 | the if/elif parameter choice; stated by ParametersPrecedence |
| Indexer.BuildIndexer | indexer/indexer.py:49-60 | the indexer definition; stated by IndexerNaming, ScheduleDefaults and ParametersPrecedence |
| Indexer.ParametersPrecedence | indexer/indexer.py:36-46 | parameters exist iff either flag; normalized images per page iff use_ocr; read-file-data iff layout without OCR; no query timeout |
| Indexer.IndexerNaming | indexer/indexer.py:32-60 | the indexer is index+"-indexer", with skillset index+"-skillset", data source index+"-blob" and target index index_name |
| Indexer.ScheduleDefaults | indexer/indexer.py:97-110 | the submitted schedule's interval is PT8H and its start time 2024-10-01T00:00:00Z when none is given on the command line; a given value is passed through |
| Indexer.CreateIndexer | indexer/indexer.py:62-64 | without AZURE_SEARCH_KEY no call is made and the credential's TypeError is the result; otherwise create_or_update_indexer with the key comes first, run_indexer on the same name follows only if it succeeded, and the result is the last outcome |
| DataSource.ContainerStore.Exists | indexer/datasource.py:58 | logs one exists call, leaves the containers unchanged, and answers membership or raises the storage fault |
| DataSource.ContainerStore.CreateContainer | indexer/datasource.py:59 | logs one create call; adds the name unless the storage raises |
| DataSource.EnsureContainerExists | indexer/datasource.py:31-64 | on success the container exists; an existing container gets only the exists call and the store is unchanged; a missing one gets exists then create, both with the given credential; other containers are never affected; a fault of either call is raised again |
| DataSource.ConnectionString | indexer/datasource.py:88 | the resource-id string; stated by ConnectionStringIsResourcePath and ConnectionStringRoundTrip |
| DataSource.ConnectionStringIsResourcePath | indexer/datasource.py:88 | the connection string is "ResourceId=" followed by /subscriptions/sub/resourceGroups/rg/providers/Microsoft.Storage/storageAccounts/acct in segment form |
| DataSource.ConnectionStringRoundTrip | indexer/datasource.py:88 | for slash-free names the subscription, resource group and account can be read back out of the connection string |
| DataSource.BuildDataSource | indexer/datasource.py:91-104 | the data-source connection; stated by DataSourceDefinition |
| DataSource.DataSourceDefinition | indexer/datasource.py:91-104 | name index+"-blob", type azureblob, the given container, high-water mark metadata_storage_last_modified, soft delete Status = Deleted, connection string "ResourceId=" followed by the slash form of the account's eight-segment resource path |
| DataSource.Submission | indexer/datasource.py:115-116 | the step after a successful ensure: the keyed create_or_update_data_source_connection of the built connection, or nothing when AZURE_SEARCH_KEY is unset |
| DataSource.SubmissionOutcome | indexer/datasource.py:115-116 | the service's answer to that submission, or the credential's TypeError when the key is unset |
| DataSource.CreateDataSource | indexer/datasource.py:66-116 | one ordered log of every call, storage and search: exists with AZURE_STORAGE_KEY, then create only for a missing container, then the submission only if both succeeded; a raise from exists or create is the result and ends the log; the container set and the store's own log are stated for each case; other containers are unaffected |
| Reset.ResetPlan | indexer/reset_index.py:24-62 | four deletions, indexer, skillset, data source, index, all with the given search key |
| Reset.Issued | indexer/reset_index.py:39-62 | the deletions made when nothing catches an error: up to and including the first that raises |
| Reset.Result | indexer/reset_index.py:39-62 | the first error raised, or success |
| Reset.IssuedIsPrefix | indexer/reset_index.py:39-62 | the deletions issued are always an initial part of the plan |
| Reset.AllDoneIssuesPlan | indexer/reset_index.py:39-62 | when no delete raises, the whole plan is issued and the reset succeeds |
| Reset.FirstRaiseStops | indexer/reset_index.py:39-62 | when the k-th delete is the first to raise, exactly the first k+1 are issued, nothing later, and that error is what the caller sees |
| Reset.ResultRaisedIff | indexer/reset_index.py:39-62 | the reset fails exactly when some planned delete raises |
| Reset.PlanTargets | indexer/reset_index.py:32-35 | the deleted names are index+"-indexer", index+"-skillset", index+"-blob" and index, pairwise distinct |
| Reset.FullResetIssuesEachOnce | indexer/reset_index.py:39-62 | a fully successful reset issues exactly four delete calls, no two equal |
| Reset.DeleteIndex | indexer/reset_index.py:20-62 | without AZURE_SEARCH_KEY no delete is issued and the credential's TypeError is the result; otherwise the straight-line deletions issue the plan up to the first raise and return its outcome |
| Reset.EntryGuard | indexer/reset_index.py:103-107 | the entry condition: a truthy endpoint and a truthy index name other than "None"; stated by EntryGuardCases |
| Reset.EntryGuardCases | indexer/reset_index.py:103-108 | the delete runs only with a non-empty endpoint and a non-empty index name other than "None", and always then |
| Reset.ResetEntry | indexer/reset_index.py:100-108 | when the guard fails nothing is issued; otherwise the deletion sequence runs, raising before any delete when the key is unset |
| Consistency.SkillsetFacts | indexer/skillset.py:296-307 | whatever the flags, the submitted skillset has its shared name, projects the selected field list into the index, and ends in the configured embedding skill |
| Consistency.IndexNames | indexer/index.py:50-119 | the index always has title, chunk and vector, and each extra field exactly by its flag |
| Consistency.ProjectionFieldsIndexed | indexer/index.py:104-119 | the skillset's projected names are all index fields: always for plain; for OCR iff the index has page numbers; for layout iff it has the headers |
| Consistency.OcrReads | indexer/skillset.py:41-80 | the OCR skillset reads the normalized page images and never the raw file data |
| Consistency.LayoutReads | indexer/skillset.py:141-174 | the layout skillset reads the raw file data and never the page images |
| Consistency.PlainReads | indexer/skillset.py:244-258 | the plain skillset reads neither the page images nor the raw file data |
| Consistency.IndexerFeedsSkillset | indexer/indexer.py:36-46 | for all four flag pairs the indexer asks for page images iff the skillset reads them, and allows file data iff the skillset reads it |
| Consistency.DeploymentNamesAgree | indexer/indexer.py:32-54 | for one index name, the indexer links the skillset, data source and index the other scripts create, the projection targets that index, and the reset deletes exactly those four |
| Consistency.EmbeddingMatchesIndex | indexer/skillset.py:70-84 | given the same model settings, the embedding skill's dimensions equal the index vector field's, with the vectorizer's endpoint, deployment and model |

## Left out

- Every `main()`, with its argument parsing and logging setup, is command-line glue and is not modelled. The model takes the parsed values as parameters. Two parts are modelled because they change what is submitted: the `--interval` and `--start-time` defaults of the indexer script, and the reset entry guard.
- The Azure SDK itself is a foreign network service and is replaced by outcome oracles. This covers client construction (apart from the key credential's TypeError for an unset `AZURE_SEARCH_KEY`), connection handling, the service's own validation and what a definition does once submitted.
- `indexer/search_test.py` is not part of this model. It sends a vector query and prints the ranking, which the service computes.
- The OCR, layout-extraction and embedding algorithms run inside external services and are not modelled.
- Logging and `print` output are not modelled.
- The skillset's final `create_or_update_skillset` call (`indexer/skillset.py:309-313`) is SDK plumbing and is left out.
- The account URL passed to the blob client is not modelled. The container store stands for the one account it selects. The storage key is carried on every container call.
- `int(...)` on the model dimensions (`indexer/skillset.py:76`) is taken as already applied: dimensions are an `int` in both the skillset and the index.
- DataSource.EnsureContainerExists: assumes nothing else changes the storage account between the check and the create. A concurrent create or delete is outside the model.
- DataSource.ConnectionStringRoundTrip: holds only for names without "/". Names with a slash make the resource id ambiguous, and the code does not reject them.
- Concurrency and timing are not modelled. This covers the indexer's scheduled runs and the fact that `run_indexer` starts asynchronous work.
