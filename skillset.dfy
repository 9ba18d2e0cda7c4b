// The skillset builder: three fixed enrichment topologies (OCR, layout, plain
// text split), each a chain of skills connected by field paths and ending in an
// index projection that fans each document out into one index document per chunk.
module Skillset {
  import opened Common
  import opened Paths
  import Naming

  /** The three mutually exclusive pipeline topologies. */
  datatype Topology = OcrPipeline | LayoutPipeline | PlainPipeline

  datatype SkillKind = OcrSkill | LayoutSkill | SplitSkill | EmbeddingSkill

  /** Reads the value at `source` and passes it to the skill input `name`. */
  datatype InputMapping = InputMapping(name: string, source: Path)

  /** Writes the skill output `name` under the skill's context, as `targetName`. */
  datatype OutputMapping = OutputMapping(name: string, targetName: string)

  /** The settings that differ from one kind of skill to the next. */
  datatype SkillParams =
    | OcrParams(lineEnding: string, defaultLanguageCode: string, shouldDetectOrientation: bool)
    | LayoutParams(outputMode: string, markdownHeaderDepth: string)
    | SplitParams(textSplitMode: string, maximumPageLength: int, pageOverlapLength: int)
    | EmbedParams(resourceUrl: string, deploymentName: string, modelName: string,
                  dimensions: int, apiKey: Option<string>)

  /** A skill runs once per node matched by its context. */
  datatype Skill = Skill(
    description: string,
    context: Path,
    params: SkillParams,
    inputs: seq<InputMapping>,
    outputs: seq<OutputMapping>)
  {
    function Kind(): SkillKind {
      match params
      case OcrParams(_, _, _) => OcrSkill
      case LayoutParams(_, _) => LayoutSkill
      case SplitParams(_, _, _) => SplitSkill
      case EmbedParams(_, _, _, _, _) => EmbeddingSkill
    }
  }

  datatype ProjectionMode = SkipIndexingParentDocuments | IncludeIndexingParentDocuments

  /** One index document per node matched by sourceContext, keyed to its parent by parentKeyFieldName. */
  datatype ProjectionSelector = ProjectionSelector(
    targetIndexName: string,
    parentKeyFieldName: string,
    sourceContext: Path,
    mappings: seq<InputMapping>)

  datatype IndexProjection = IndexProjection(selectors: seq<ProjectionSelector>, projectionMode: ProjectionMode)

  /** How the skillset authenticates against the AI services account. */
  datatype AiServicesAccount =
    | AccountKey(key: string, subdomainUrl: string)
    | AccountIdentity(identity: Option<string>, subdomainUrl: string)

  datatype SkillsetDef = SkillsetDef(
    name: string,
    description: string,
    skills: seq<Skill>,
    indexProjection: IndexProjection,
    cognitiveServicesAccount: Option<AiServicesAccount>)

  /** The fields AISearchSkillset copies from its command-line arguments. */
  datatype SkillsetConfig = SkillsetConfig(
    azureOpenAiEndpoint: string,
    embeddingDeployment: string,
    modelName: string,
    modelDimensions: int,
    aiServicesEndpoint: string,
    searchEndpoint: string,
    indexName: string,
    useOcr: bool,
    useDocumentLayout: bool)

  const SkillsetDescription: string := "Skillset to chunk documents and generating embeddings"
  const MaximumPageLength: int := 2000
  const PageOverlapLength: int := 500

  const DocumentRoot: Path := ["document"]
  const TitleSource: Path := ["document", "metadata_storage_name"]

  // ---------------------------------------------------------------------------
  // The builders

  /** Key-based account when AZURE_AI_SERVICE_KEY is set and non-empty, identity-based otherwise. */
  function ServicesAccount(cfg: SkillsetConfig, env: Env): AiServicesAccount {
    if Truthy(env.aiServiceKey) then AccountKey(env.aiServiceKey.value, cfg.aiServicesEndpoint)
    else AccountIdentity(None, cfg.aiServicesEndpoint)
  }

  /** OCR over each normalized image, split of the recognised text, embedding of each chunk. */
  function CreateOcrSkillset(cfg: SkillsetConfig, env: Env): SkillsetDef {
    var ocr := Skill(
      "OCR skill to scan PDFs and other images with text",
      ["document", "normalized_images", "*"],
      OcrParams("Space", "en", true),
      [InputMapping("image", ["document", "normalized_images", "*"])],
      [OutputMapping("text", "text"), OutputMapping("layoutText", "layoutText")]);
    var split := Skill(
      "Split skill to chunk documents",
      ["document", "normalized_images", "*"],
      SplitParams("pages", MaximumPageLength, PageOverlapLength),
      [InputMapping("text", ["document", "normalized_images", "*", "text"])],
      [OutputMapping("textItems", "pages")]);
    var embedding := Skill(
      "Skill to generate embeddings via Azure OpenAI",
      ["document", "normalized_images", "*", "pages", "*"],
      EmbedParams(cfg.azureOpenAiEndpoint, cfg.embeddingDeployment, cfg.modelName, cfg.modelDimensions, env.openAiKey),
      [InputMapping("text", ["document", "normalized_images", "*", "pages", "*"])],
      [OutputMapping("embedding", "vector")]);
    var projection := IndexProjection(
      [ProjectionSelector(
        cfg.indexName,
        "parent_id",
        ["document", "normalized_images", "*", "pages", "*"],
        [ InputMapping("chunk", ["document", "normalized_images", "*", "pages", "*"]),
          InputMapping("vector", ["document", "normalized_images", "*", "pages", "*", "vector"]),
          InputMapping("title", ["document", "metadata_storage_name"]),
          InputMapping("page_number", ["document", "normalized_images", "*", "pageNumber"]) ])],
      SkipIndexingParentDocuments);
    SkillsetDef(Naming.SkillsetName(cfg.indexName), SkillsetDescription, [ocr, split, embedding],
                projection, Some(ServicesAccount(cfg, env)))
  }

  /** Layout extraction into markdown sections, split of each section, embedding of each chunk. */
  function CreateLayoutSkillset(cfg: SkillsetConfig, env: Env): SkillsetDef {
    var layout := Skill(
      "Layout skill to read documents",
      ["document"],
      LayoutParams("oneToMany", "h3"),
      [InputMapping("file_data", ["document", "file_data"])],
      [OutputMapping("markdown_document", "markdownDocument")]);
    var split := Skill(
      "Split skill to chunk documents",
      ["document", "markdownDocument", "*"],
      SplitParams("pages", MaximumPageLength, PageOverlapLength),
      [InputMapping("text", ["document", "markdownDocument", "*", "content"])],
      [OutputMapping("textItems", "pages")]);
    var embedding := Skill(
      "Skill to generate embeddings via Azure OpenAI",
      ["document", "markdownDocument", "*", "pages", "*"],
      EmbedParams(cfg.azureOpenAiEndpoint, cfg.embeddingDeployment, cfg.modelName, cfg.modelDimensions, env.openAiKey),
      [InputMapping("text", ["document", "markdownDocument", "*", "pages", "*"])],
      [OutputMapping("embedding", "vector")]);
    var projection := IndexProjection(
      [ProjectionSelector(
        cfg.indexName,
        "parent_id",
        ["document", "markdownDocument", "*", "pages", "*"],
        [ InputMapping("chunk", ["document", "markdownDocument", "*", "pages", "*"]),
          InputMapping("vector", ["document", "markdownDocument", "*", "pages", "*", "vector"]),
          InputMapping("title", ["document", "metadata_storage_name"]),
          InputMapping("header_1", ["document", "markdownDocument", "*", "sections", "h1"]),
          InputMapping("header_2", ["document", "markdownDocument", "*", "sections", "h2"]),
          InputMapping("header_3", ["document", "markdownDocument", "*", "sections", "h3"]) ])],
      SkipIndexingParentDocuments);
    SkillsetDef(Naming.SkillsetName(cfg.indexName), SkillsetDescription, [layout, split, embedding],
                projection, Some(ServicesAccount(cfg, env)))
  }

  /** Split of the extracted document text, embedding of each chunk; no AI services account. */
  function CreateAiSkillset(cfg: SkillsetConfig, env: Env): SkillsetDef {
    var split := Skill(
      "Split skill to chunk documents",
      ["document"],
      SplitParams("pages", MaximumPageLength, PageOverlapLength),
      [InputMapping("text", ["document", "content"])],
      [OutputMapping("textItems", "pages")]);
    var embedding := Skill(
      "Skill to generate embeddings via Azure OpenAI",
      ["document", "pages", "*"],
      EmbedParams(cfg.azureOpenAiEndpoint, cfg.embeddingDeployment, cfg.modelName, cfg.modelDimensions, env.openAiKey),
      [InputMapping("text", ["document", "pages", "*"])],
      [OutputMapping("embedding", "vector")]);
    var projection := IndexProjection(
      [ProjectionSelector(
        cfg.indexName,
        "parent_id",
        ["document", "pages", "*"],
        [ InputMapping("chunk", ["document", "pages", "*"]),
          InputMapping("vector", ["document", "pages", "*", "vector"]),
          InputMapping("title", ["document", "metadata_storage_name"]) ])],
      SkipIndexingParentDocuments);
    SkillsetDef(Naming.SkillsetName(cfg.indexName), SkillsetDescription, [split, embedding], projection, None)
  }

  /** The OCR flag wins over the layout flag; with neither, the plain pipeline. */
  function SelectTopology(useOcr: bool, useDocumentLayout: bool): (t: Topology)
    ensures t == OcrPipeline <==> useOcr
    ensures t == LayoutPipeline <==> !useOcr && useDocumentLayout
    ensures t == PlainPipeline <==> !useOcr && !useDocumentLayout
  {
    if useOcr then OcrPipeline else if useDocumentLayout then LayoutPipeline else PlainPipeline
  }

  /** The definition create_skillset submits. */
  function CreateSkillset(cfg: SkillsetConfig, env: Env): SkillsetDef {
    match SelectTopology(cfg.useOcr, cfg.useDocumentLayout)
    case OcrPipeline => CreateOcrSkillset(cfg, env)
    case LayoutPipeline => CreateLayoutSkillset(cfg, env)
    case PlainPipeline => CreateAiSkillset(cfg, env)
  }

  // ---------------------------------------------------------------------------
  // What a well-built skillset looks like, stated independently of the builders

  /** The kind of each skill, in order. */
  function Kinds(skills: seq<Skill>): seq<SkillKind> {
    seq(|skills|, i requires 0 <= i < |skills| => skills[i].Kind())
  }

  /** The chain of skill kinds each topology runs. */
  function PipelineKinds(t: Topology): seq<SkillKind> {
    match t
    case OcrPipeline => [OcrSkill, SplitSkill, EmbeddingSkill]
    case LayoutPipeline => [LayoutSkill, SplitSkill, EmbeddingSkill]
    case PlainPipeline => [SplitSkill, EmbeddingSkill]
  }

  /** The index fields each topology projects, in order. */
  function PipelineFields(t: Topology): seq<string> {
    match t
    case OcrPipeline => ["chunk", "vector", "title", "page_number"]
    case LayoutPipeline => ["chunk", "vector", "title", "header_1", "header_2", "header_3"]
    case PlainPipeline => ["chunk", "vector", "title"]
  }

  /** The target field name of each mapping, in order. */
  function MappingNames(ms: seq<InputMapping>): seq<string> {
    seq(|ms|, i requires 0 <= i < |ms| => ms[i].name)
  }

  /** The names of the index fields the (single) projection selector writes. */
  function ProjectedNames(s: SkillsetDef): seq<string> {
    if |s.indexProjection.selectors| == 0 then [] else MappingNames(s.indexProjection.selectors[0].mappings)
  }

  /** Every input of every skill reads at or below that skill's context. */
  predicate InputsScoped(skills: seq<Skill>) {
    forall i, j :: 0 <= i < |skills| && 0 <= j < |skills[i].inputs| ==>
      skills[i].context <= skills[i].inputs[j].source
  }

  /**
   * `next` runs either once per item of a collection that `prev` writes under its
   * own context, or in `prev`'s context reading a value `prev` writes there.
   */
  predicate Feeds(prev: Skill, next: Skill) {
    exists k :: 0 <= k < |prev.outputs| &&
      (|| next.context == prev.context + [prev.outputs[k].targetName, Wildcard]
       || (&& next.context == prev.context
           && exists j :: 0 <= j < |next.inputs| && next.inputs[j].source == prev.context + [prev.outputs[k].targetName]))
  }

  /** Each skill after the first is fed by the one before it. */
  predicate Chained(skills: seq<Skill>) {
    forall i :: 0 < i < |skills| ==> Feeds(skills[i - 1], skills[i])
  }

  /** Every split skill cuts pages of 2000 characters overlapping by 500. */
  predicate ChunkingFixed(skills: seq<Skill>) {
    forall i :: 0 <= i < |skills| && skills[i].params.SplitParams? ==>
      skills[i].params == SplitParams("pages", MaximumPageLength, PageOverlapLength)
  }

  /** Every embedding skill uses the configured model, dimensions and AZURE_OPENAI_KEY. */
  predicate EmbeddingConfigured(skills: seq<Skill>, cfg: SkillsetConfig, env: Env) {
    forall i :: 0 <= i < |skills| && skills[i].params.EmbedParams? ==>
      skills[i].params == EmbedParams(cfg.azureOpenAiEndpoint, cfg.embeddingDeployment, cfg.modelName,
                                      cfg.modelDimensions, env.openAiKey)
  }

  /** Every path the skillset reads lies inside the document. */
  predicate RootedAtDocument(s: SkillsetDef) {
    && (forall i, j :: 0 <= i < |s.skills| && 0 <= j < |s.skills[i].inputs| ==>
          DocumentRoot <= s.skills[i].inputs[j].source)
    && (forall i, j :: 0 <= i < |s.indexProjection.selectors| && 0 <= j < |s.indexProjection.selectors[i].mappings| ==>
          DocumentRoot <= s.indexProjection.selectors[i].mappings[j].source)
  }

  /**
   * One selector into the index, keyed by parent_id, that suppresses the parent
   * document and emits one document per item the last (embedding) skill ran on:
   * the chunk is that item, the vector is the embedding skill's output under it,
   * the title is the blob name.
   */
  predicate ProjectsEmbeddedChunks(s: SkillsetDef, indexName: string) {
    && |s.skills| > 0
    && |s.indexProjection.selectors| == 1
    && s.indexProjection.projectionMode == SkipIndexingParentDocuments
    && var embedding := s.skills[|s.skills| - 1];
       var sel := s.indexProjection.selectors[0];
       && embedding.Kind() == EmbeddingSkill
       && sel.targetIndexName == indexName
       && sel.parentKeyFieldName == "parent_id"
       && sel.sourceContext == embedding.context
       && |sel.mappings| >= 3
       && sel.mappings[0] == InputMapping("chunk", sel.sourceContext)
       && OutputMapping("embedding", "vector") in embedding.outputs
       && sel.mappings[1] == InputMapping("vector", sel.sourceContext + ["vector"])
       && sel.mappings[2] == InputMapping("title", TitleSource)
  }

  /**
   * The mappings after chunk and vector (title, page number, headers) read
   * values that are not below the chunk: they come from enclosing scopes.
   */
  predicate ExtrasOutsideChunk(s: SkillsetDef) {
    forall i, j :: 0 <= i < |s.indexProjection.selectors| && 2 <= j < |s.indexProjection.selectors[i].mappings| ==>
      !(s.indexProjection.selectors[i].sourceContext <= s.indexProjection.selectors[i].mappings[j].source)
  }

  /** Every path the skillset reads is where the code says it is relative to its scope. */
  predicate PathsScoped(s: SkillsetDef) {
    InputsScoped(s.skills) && RootedAtDocument(s) && ExtrasOutsideChunk(s)
  }

  /** The fixed settings: chunking, embedding model and the chunk projection. */
  predicate Settings(s: SkillsetDef, cfg: SkillsetConfig, env: Env) {
    && ChunkingFixed(s.skills)
    && EmbeddingConfigured(s.skills, cfg, env)
    && ProjectsEmbeddedChunks(s, cfg.indexName)
  }

  /** OCR and layout carry an AI services account chosen by AZURE_AI_SERVICE_KEY; plain carries none. */
  predicate AccountFor(s: SkillsetDef, t: Topology, cfg: SkillsetConfig, env: Env) {
    if t == PlainPipeline then s.cognitiveServicesAccount == None
    else
      && s.cognitiveServicesAccount.Some?
      && s.cognitiveServicesAccount.value.subdomainUrl == cfg.aiServicesEndpoint
      && (s.cognitiveServicesAccount.value.AccountKey? <==> Truthy(env.aiServiceKey))
      && (s.cognitiveServicesAccount.value.AccountKey? ==> s.cognitiveServicesAccount.value.key == env.aiServiceKey.value)
      && (s.cognitiveServicesAccount.value.AccountIdentity? ==> s.cognitiveServicesAccount.value.identity == None)
  }

  /** Name, chain of kinds, projected fields and account of a topology-`t` skillset. */
  predicate Structure(s: SkillsetDef, t: Topology, cfg: SkillsetConfig, env: Env) {
    && s.name == Naming.SkillsetName(cfg.indexName)
    && s.description == SkillsetDescription
    && Kinds(s.skills) == PipelineKinds(t)
    && ProjectedNames(s) == PipelineFields(t)
    && AccountFor(s, t, cfg, env)
  }

  /** `s` is a skillset of topology `t` built from `cfg` and `env`. */
  predicate Conforms(s: SkillsetDef, t: Topology, cfg: SkillsetConfig, env: Env) {
    && Structure(s, t, cfg, env)
    && PathsScoped(s)
    && Chained(s.skills)
    && Settings(s, cfg, env)
  }

  // ---------------------------------------------------------------------------
  // The builders meet the description

  lemma OcrStructure(cfg: SkillsetConfig, env: Env)
    ensures Structure(CreateOcrSkillset(cfg, env), OcrPipeline, cfg, env)
  {}

  lemma OcrPathsScoped(cfg: SkillsetConfig, env: Env)
    ensures PathsScoped(CreateOcrSkillset(cfg, env))
  {}

  lemma OcrSettings(cfg: SkillsetConfig, env: Env)
    ensures Settings(CreateOcrSkillset(cfg, env), cfg, env)
  {}

  /** The OCR chain: split on the OCR text of each image, embedding per page; page number read on the image. */
  lemma OcrChained(cfg: SkillsetConfig, env: Env)
    ensures var s := CreateOcrSkillset(cfg, env);
      && Chained(s.skills)
      && |s.skills| == 3
      && s.skills[1].context == s.skills[0].context
      && s.skills[1].inputs[0].source == s.skills[0].context + [s.skills[0].outputs[0].targetName]
      && s.skills[1].outputs[0].targetName == "pages"
      && s.skills[2].context == s.skills[1].context + ["pages", Wildcard]
      && s.indexProjection.selectors[0].mappings[3].source == s.skills[0].context + ["pageNumber"]
      && s.skills[0].context < s.indexProjection.selectors[0].sourceContext
  {
    var s := CreateOcrSkillset(cfg, env);
    assert Feeds(s.skills[0], s.skills[1]) by {
      assert s.skills[1].inputs[0].source == s.skills[0].context + [s.skills[0].outputs[0].targetName];
    }
    assert Feeds(s.skills[1], s.skills[2]) by {
      assert s.skills[2].context == s.skills[1].context + [s.skills[1].outputs[0].targetName, Wildcard];
    }
  }

  lemma OcrSkillsetConforms(cfg: SkillsetConfig, env: Env)
    ensures Conforms(CreateOcrSkillset(cfg, env), OcrPipeline, cfg, env)
  {
    OcrStructure(cfg, env);
    OcrPathsScoped(cfg, env);
    OcrChained(cfg, env);
    OcrSettings(cfg, env);
  }

  lemma LayoutStructure(cfg: SkillsetConfig, env: Env)
    ensures Structure(CreateLayoutSkillset(cfg, env), LayoutPipeline, cfg, env)
  {}

  lemma LayoutPathsScoped(cfg: SkillsetConfig, env: Env)
    ensures PathsScoped(CreateLayoutSkillset(cfg, env))
  {
    var sel := CreateLayoutSkillset(cfg, env).indexProjection.selectors[0];
    forall j | 3 <= j < |sel.mappings|
      ensures !(sel.sourceContext <= sel.mappings[j].source)
    {
      assert sel.mappings[j].source[3] == "sections" && |"sections"| != |"pages"|;
    }
  }

  lemma LayoutSettings(cfg: SkillsetConfig, env: Env)
    ensures Settings(CreateLayoutSkillset(cfg, env), cfg, env)
  {}

  /**
   * The layout chain: markdownDocument written on the document, split per section,
   * embedding per page; the headers read on the section.
   */
  lemma LayoutChained(cfg: SkillsetConfig, env: Env)
    ensures var s := CreateLayoutSkillset(cfg, env);
      && Chained(s.skills)
      && |s.skills| == 3
      && s.skills[0].context == DocumentRoot
      && s.skills[0].outputs[0].targetName == "markdownDocument"
      && s.skills[1].context == s.skills[0].context + ["markdownDocument", Wildcard]
      && s.skills[1].outputs[0].targetName == "pages"
      && s.skills[2].context == s.skills[1].context + ["pages", Wildcard]
      && s.indexProjection.selectors[0].mappings[3].source == s.skills[1].context + ["sections", "h1"]
      && s.indexProjection.selectors[0].mappings[4].source == s.skills[1].context + ["sections", "h2"]
      && s.indexProjection.selectors[0].mappings[5].source == s.skills[1].context + ["sections", "h3"]
      && s.skills[1].context < s.indexProjection.selectors[0].sourceContext
  {
    var s := CreateLayoutSkillset(cfg, env);
    assert Feeds(s.skills[0], s.skills[1]) by {
      assert s.skills[1].context == s.skills[0].context + [s.skills[0].outputs[0].targetName, Wildcard];
    }
    assert Feeds(s.skills[1], s.skills[2]) by {
      assert s.skills[2].context == s.skills[1].context + [s.skills[1].outputs[0].targetName, Wildcard];
    }
  }

  lemma LayoutSkillsetConforms(cfg: SkillsetConfig, env: Env)
    ensures Conforms(CreateLayoutSkillset(cfg, env), LayoutPipeline, cfg, env)
  {
    LayoutStructure(cfg, env);
    LayoutPathsScoped(cfg, env);
    LayoutChained(cfg, env);
    LayoutSettings(cfg, env);
  }

  lemma AiStructure(cfg: SkillsetConfig, env: Env)
    ensures Structure(CreateAiSkillset(cfg, env), PlainPipeline, cfg, env)
  {}

  lemma AiPathsScoped(cfg: SkillsetConfig, env: Env)
    ensures PathsScoped(CreateAiSkillset(cfg, env))
  {}

  lemma AiSettings(cfg: SkillsetConfig, env: Env)
    ensures Settings(CreateAiSkillset(cfg, env), cfg, env)
  {}

  /** The plain chain: split of the document content, embedding per page. */
  lemma AiChained(cfg: SkillsetConfig, env: Env)
    ensures var s := CreateAiSkillset(cfg, env);
      && Chained(s.skills)
      && |s.skills| == 2
      && s.skills[0].context == DocumentRoot
      && s.skills[0].outputs[0].targetName == "pages"
      && s.skills[1].context == s.skills[0].context + ["pages", Wildcard]
  {
    var s := CreateAiSkillset(cfg, env);
    assert Feeds(s.skills[0], s.skills[1]) by {
      assert s.skills[1].context == s.skills[0].context + [s.skills[0].outputs[0].targetName, Wildcard];
    }
  }

  lemma AiSkillsetConforms(cfg: SkillsetConfig, env: Env)
    ensures Conforms(CreateAiSkillset(cfg, env), PlainPipeline, cfg, env)
  {
    AiStructure(cfg, env);
    AiPathsScoped(cfg, env);
    AiChained(cfg, env);
    AiSettings(cfg, env);
  }

  /** The submitted skillset is the one of the selected topology, for all four flag pairs. */
  lemma CreateSkillsetConforms(cfg: SkillsetConfig, env: Env)
    ensures Conforms(CreateSkillset(cfg, env), SelectTopology(cfg.useOcr, cfg.useDocumentLayout), cfg, env)
  {
    match SelectTopology(cfg.useOcr, cfg.useDocumentLayout)
    case OcrPipeline => OcrSkillsetConforms(cfg, env);
    case LayoutPipeline => LayoutSkillsetConforms(cfg, env);
    case PlainPipeline => AiSkillsetConforms(cfg, env);
  }

  /**
   * The scoping facts carry over to the path strings the definition is sent
   * with: each input's string begins with its skill's context string, and every
   * read string begins with "/document".
   */
  lemma ScopedAsStrings(s: SkillsetDef)
    requires PathsScoped(s)
    ensures forall i, j :: 0 <= i < |s.skills| && 0 <= j < |s.skills[i].inputs| ==>
      Render(s.skills[i].context) <= Render(s.skills[i].inputs[j].source)
    ensures forall i, j :: 0 <= i < |s.skills| && 0 <= j < |s.skills[i].inputs| ==>
      "/document" <= Render(s.skills[i].inputs[j].source)
    ensures forall i, j :: 0 <= i < |s.indexProjection.selectors| && 0 <= j < |s.indexProjection.selectors[i].mappings| ==>
      "/document" <= Render(s.indexProjection.selectors[i].mappings[j].source)
  {
    assert Render(DocumentRoot) == "/document";
    forall i, j | 0 <= i < |s.skills| && 0 <= j < |s.skills[i].inputs|
      ensures Render(s.skills[i].context) <= Render(s.skills[i].inputs[j].source)
      ensures "/document" <= Render(s.skills[i].inputs[j].source)
    {
      PrefixRendersAsPrefix(s.skills[i].context, s.skills[i].inputs[j].source);
      PrefixRendersAsPrefix(DocumentRoot, s.skills[i].inputs[j].source);
    }
    forall i, j | 0 <= i < |s.indexProjection.selectors| && 0 <= j < |s.indexProjection.selectors[i].mappings|
      ensures "/document" <= Render(s.indexProjection.selectors[i].mappings[j].source)
    {
      PrefixRendersAsPrefix(DocumentRoot, s.indexProjection.selectors[i].mappings[j].source);
    }
  }

  /** Different topologies run different chains, so the chain identifies the topology. */
  lemma TopologyDeterminedByKinds(s: SkillsetDef, t1: Topology, t2: Topology,
                                  cfg: SkillsetConfig, env: Env)
    requires Conforms(s, t1, cfg, env) && Conforms(s, t2, cfg, env)
    ensures t1 == t2
  {
    assert PipelineKinds(t1) == PipelineKinds(t2);
    assert PipelineKinds(t1)[0] == PipelineKinds(t2)[0];
  }

  /** With the OCR flag set, the layout flag has no effect on the submitted skillset. */
  lemma OcrFlagOverridesLayout(cfg: SkillsetConfig, env: Env)
    requires cfg.useOcr
    ensures CreateSkillset(cfg, env) == CreateSkillset(cfg.(useDocumentLayout := !cfg.useDocumentLayout), env)
    ensures Kinds(CreateSkillset(cfg, env).skills) == [OcrSkill, SplitSkill, EmbeddingSkill]
    ensures "page_number" in ProjectedNames(CreateSkillset(cfg, env))
  {
    OcrSkillsetConforms(cfg, env);
  }

  /** The plain pipeline for an index named "docs": skills [Split, Embed], fields {chunk, vector, title}. */
  lemma PlainScenario(cfg: SkillsetConfig, env: Env)
    requires cfg.indexName == "docs" && !cfg.useOcr && !cfg.useDocumentLayout
    ensures CreateSkillset(cfg, env).name == "docs-skillset"
    ensures Kinds(CreateSkillset(cfg, env).skills) == [SplitSkill, EmbeddingSkill]
    ensures (set n | n in ProjectedNames(CreateSkillset(cfg, env))) == {"chunk", "vector", "title"}
  {
    AiSkillsetConforms(cfg, env);
    var names := ProjectedNames(CreateSkillset(cfg, env));
    assert names == ["chunk", "vector", "title"];
  }
}
