// How the five scripts fit together. Each script is run separately with its own
// flags, and none of them checks the others; these lemmas state what holds when
// they are given the same index name and model settings, and what goes wrong
// when the index and the skillset are built with different flags.
module Consistency {
  import opened Common
  import Naming
  import Skillset
  import IndexSchema
  import Indexer
  import DataSource
  import Reset

  /** Every name in `projected` is the name of some index field. */
  predicate Covered(projected: seq<string>, fieldNames: seq<string>) {
    forall i :: 0 <= i < |projected| ==> projected[i] in fieldNames
  }

  /** What the other scripts rely on in the submitted skillset, whichever topology is selected. */
  lemma SkillsetFacts(cfg: Skillset.SkillsetConfig, env: Env)
    ensures var s := Skillset.CreateSkillset(cfg, env);
      && s.name == Naming.SkillsetName(cfg.indexName)
      && Skillset.ProjectedNames(s) == Skillset.PipelineFields(Skillset.SelectTopology(cfg.useOcr, cfg.useDocumentLayout))
      && |s.indexProjection.selectors| == 1
      && s.indexProjection.selectors[0].targetIndexName == cfg.indexName
      && |s.skills| > 0
      && s.skills[|s.skills| - 1].params
         == Skillset.EmbedParams(cfg.azureOpenAiEndpoint, cfg.embeddingDeployment, cfg.modelName,
                                 cfg.modelDimensions, env.openAiKey)
  {
    match Skillset.SelectTopology(cfg.useOcr, cfg.useDocumentLayout)
    case OcrPipeline => Skillset.OcrStructure(cfg, env);
    case LayoutPipeline => Skillset.LayoutStructure(cfg, env);
    case PlainPipeline => Skillset.AiStructure(cfg, env);
  }

  /** The index's field names contain title, chunk and vector, and the extras exactly by flag. */
  lemma IndexNames(args: IndexSchema.IndexArgs)
    ensures var names := IndexSchema.FieldNames(IndexSchema.BuildIndex(args).fields);
      && "title" in names && "chunk" in names && "vector" in names
      && ("page_number" in names <==> args.addPageNumbers)
      && ("header_1" in names <==> args.useDocumentLayout)
      && ("header_2" in names <==> args.useDocumentLayout)
      && ("header_3" in names <==> args.useDocumentLayout)
  {
    var names := IndexSchema.FieldNames(IndexSchema.BuildIndex(args).fields);
    IndexSchema.FieldNamesByFlags(args.indexName, args.modelDimensions, args.addPageNumbers, args.useDocumentLayout);
    IndexSchema.ExtraFieldsIff(args.indexName, args.modelDimensions, args.addPageNumbers, args.useDocumentLayout);
    assert names[1] == "title" && names[5] == "chunk" && names[6] == "vector";
  }

  /**
   * The projection writes only fields the index has: always for the plain
   * pipeline; for OCR exactly when the index was built with page numbers; for
   * layout exactly when the index was built with the header fields.
   */
  lemma ProjectionFieldsIndexed(cfg: Skillset.SkillsetConfig, env: Env, args: IndexSchema.IndexArgs)
    ensures var t := Skillset.SelectTopology(cfg.useOcr, cfg.useDocumentLayout);
      var covered := Covered(Skillset.ProjectedNames(Skillset.CreateSkillset(cfg, env)),
                             IndexSchema.FieldNames(IndexSchema.BuildIndex(args).fields));
      && (t == Skillset.PlainPipeline ==> covered)
      && (t == Skillset.OcrPipeline ==> (covered <==> args.addPageNumbers))
      && (t == Skillset.LayoutPipeline ==> (covered <==> args.useDocumentLayout))
  {
    var t := Skillset.SelectTopology(cfg.useOcr, cfg.useDocumentLayout);
    SkillsetFacts(cfg, env);
    IndexNames(args);
    var projected := Skillset.ProjectedNames(Skillset.CreateSkillset(cfg, env));
    assert projected == Skillset.PipelineFields(t);
    match t
    case PlainPipeline =>
    case OcrPipeline =>
      assert projected[3] == "page_number";
    case LayoutPipeline =>
      assert projected[3] == "header_1";
  }

  /** Some skill input reads at or below `p`. */
  predicate ReadsUnder(s: Skillset.SkillsetDef, p: seq<string>) {
    exists i, j :: 0 <= i < |s.skills| && 0 <= j < |s.skills[i].inputs| && p <= s.skills[i].inputs[j].source
  }

  const NormalizedImages: seq<string> := ["document", "normalized_images"]
  const FileData: seq<string> := ["document", "file_data"]

  lemma OcrReads(cfg: Skillset.SkillsetConfig, env: Env)
    ensures ReadsUnder(Skillset.CreateOcrSkillset(cfg, env), NormalizedImages)
    ensures !ReadsUnder(Skillset.CreateOcrSkillset(cfg, env), FileData)
  {
    var s := Skillset.CreateOcrSkillset(cfg, env);
    assert NormalizedImages <= s.skills[0].inputs[0].source;
    forall i, j | 0 <= i < |s.skills| && 0 <= j < |s.skills[i].inputs|
      ensures !(FileData <= s.skills[i].inputs[j].source)
    {
      assert s.skills[i].inputs[j].source[1] == "normalized_images";
      assert |"normalized_images"| != |"file_data"|;
    }
  }

  lemma LayoutReads(cfg: Skillset.SkillsetConfig, env: Env)
    ensures !ReadsUnder(Skillset.CreateLayoutSkillset(cfg, env), NormalizedImages)
    ensures ReadsUnder(Skillset.CreateLayoutSkillset(cfg, env), FileData)
  {
    var s := Skillset.CreateLayoutSkillset(cfg, env);
    assert FileData <= s.skills[0].inputs[0].source;
    forall i, j | 0 <= i < |s.skills| && 0 <= j < |s.skills[i].inputs|
      ensures !(NormalizedImages <= s.skills[i].inputs[j].source)
    {
      assert s.skills[i].inputs[j].source[1] in {"file_data", "markdownDocument"};
      assert |"normalized_images"| != |"file_data"| && |"normalized_images"| != |"markdownDocument"|;
    }
  }

  lemma PlainReads(cfg: Skillset.SkillsetConfig, env: Env)
    ensures !ReadsUnder(Skillset.CreateAiSkillset(cfg, env), NormalizedImages)
    ensures !ReadsUnder(Skillset.CreateAiSkillset(cfg, env), FileData)
  {
    var s := Skillset.CreateAiSkillset(cfg, env);
    forall i, j | 0 <= i < |s.skills| && 0 <= j < |s.skills[i].inputs|
      ensures !(NormalizedImages <= s.skills[i].inputs[j].source)
      ensures !(FileData <= s.skills[i].inputs[j].source)
    {
      assert s.skills[i].inputs[j].source[1] in {"content", "pages"};
      assert |"normalized_images"| != |"content"| && |"normalized_images"| != |"pages"|;
      assert |"file_data"| != |"content"| && |"file_data"| != |"pages"|;
    }
  }

  /**
   * For all four flag pairs, the indexer hands over page images exactly when the
   * skillset reads them, and the raw file bytes exactly when the skillset reads those.
   */
  lemma IndexerFeedsSkillset(cfg: Skillset.SkillsetConfig, env: Env)
    ensures var s := Skillset.CreateSkillset(cfg, env);
      var p := Indexer.IndexerParameters(cfg.useOcr, cfg.useDocumentLayout);
      && (ReadsUnder(s, NormalizedImages)
          <==> p.Some? && p.value.configuration.imageAction == Some(Indexer.GenerateNormalizedImagePerPage))
      && (ReadsUnder(s, FileData)
          <==> p.Some? && p.value.configuration.allowSkillsetToReadFileData == Some(true))
  {
    Indexer.ParametersPrecedence(cfg.useOcr, cfg.useDocumentLayout);
    match Skillset.SelectTopology(cfg.useOcr, cfg.useDocumentLayout)
    case OcrPipeline => OcrReads(cfg, env);
    case LayoutPipeline => LayoutReads(cfg, env);
    case PlainPipeline => PlainReads(cfg, env);
  }

  /**
   * Given one index name, every script refers to the same four resources: the
   * indexer links the skillset, data source and index that the other scripts
   * create, and the reset deletes exactly those, indexer first and index last.
   */
  lemma DeploymentNamesAgree(index: string, key: string, cfg: Skillset.SkillsetConfig, env: Env,
                             indexArgs: IndexSchema.IndexArgs, indexerArgs: Indexer.IndexerArgs,
                             dataSourceArgs: DataSource.DataSourceArgs)
    requires cfg.indexName == index && indexArgs.indexName == index
    requires indexerArgs.indexName == index && dataSourceArgs.indexName == index
    ensures var indexer := Indexer.BuildIndexer(indexerArgs);
      && indexer.skillsetName == Skillset.CreateSkillset(cfg, env).name
      && indexer.dataSourceName == DataSource.BuildDataSource(dataSourceArgs).name
      && indexer.targetIndexName == IndexSchema.BuildIndex(indexArgs).name
      && Skillset.CreateSkillset(cfg, env).indexProjection.selectors[0].targetIndexName == indexer.targetIndexName
      && var plan := Reset.ResetPlan(index, key);
         && plan[0].name == indexer.name
         && plan[1].name == indexer.skillsetName
         && plan[2].name == indexer.dataSourceName
         && plan[3].name == indexer.targetIndexName
  {
    SkillsetFacts(cfg, env);
  }

  /**
   * When the skillset and the index are given the same model settings, the
   * embedding skill produces vectors of the dimension the index's vector field
   * declares, with the same deployment the index's vectorizer queries.
   */
  lemma EmbeddingMatchesIndex(cfg: Skillset.SkillsetConfig, env: Env, args: IndexSchema.IndexArgs)
    requires cfg.modelDimensions == args.modelDimensions
    requires cfg.azureOpenAiEndpoint == args.azureOpenAiEndpoint
    requires cfg.embeddingDeployment == args.embeddingDeploymentName
    requires cfg.modelName == args.modelName
    ensures var s := Skillset.CreateSkillset(cfg, env);
      var idx := IndexSchema.BuildIndex(args);
      && |s.skills| > 0
      && var embed := s.skills[|s.skills| - 1].params;
         && embed.EmbedParams?
         && idx.fields[6].name == "vector"
         && idx.fields[6].vectorSearchDimensions == Some(embed.dimensions)
         && idx.vectorSearch.vectorizers[0].resourceUrl == embed.resourceUrl
         && idx.vectorSearch.vectorizers[0].deploymentName == embed.deploymentName
         && idx.vectorSearch.vectorizers[0].modelName == embed.modelName
  {
    SkillsetFacts(cfg, env);
    IndexSchema.VectorSearchConsistent(args);
  }
}
