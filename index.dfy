// The search index schema: a fixed list of seven fields, extended by flags with
// a page-number field and three header fields, a vector-search configuration and
// a semantic configuration all named after the index; and its submission, tried
// once with the signed-in identity and once more with the search key.
module IndexSchema {
  import opened Common

  datatype FieldType = StringField | SingleCollection

  /** A field as passed to SearchField; None for every keyword argument the code leaves out. */
  datatype SearchField = SearchField(
    name: string,
    fieldType: FieldType,
    sortable: Option<bool>,
    filterable: Option<bool>,
    facetable: Option<bool>,
    key: Option<bool>,
    analyzerName: Option<string>,
    vectorSearchDimensions: Option<int>,
    vectorSearchProfileName: Option<string>,
    hidden: Option<bool>)

  datatype HnswAlgorithm = HnswAlgorithm(name: string)
  datatype VectorSearchProfile = VectorSearchProfile(name: string, algorithmConfigurationName: string, vectorizerName: string)
  datatype OpenAiVectorizer = OpenAiVectorizer(
    vectorizerName: string, kind: string, resourceUrl: string, deploymentName: string, modelName: string)
  datatype VectorSearch = VectorSearch(
    algorithms: seq<HnswAlgorithm>, profiles: seq<VectorSearchProfile>, vectorizers: seq<OpenAiVectorizer>)

  datatype SemanticConfiguration = SemanticConfiguration(name: string, contentFields: seq<string>)
  datatype SemanticSearch = SemanticSearch(configurations: seq<SemanticConfiguration>)

  datatype SearchIndexDef = SearchIndexDef(
    name: string, fields: seq<SearchField>, vectorSearch: VectorSearch, semanticSearch: SemanticSearch)

  /** The arguments create_index reads. */
  datatype IndexArgs = IndexArgs(
    searchEndpoint: string,
    indexName: string,
    addPageNumbers: bool,
    useDocumentLayout: bool,
    azureOpenAiEndpoint: string,
    embeddingDeploymentName: string,
    modelName: string,
    modelDimensions: int)

  // ---------------------------------------------------------------------------
  // Fields

  /** A string field with the three flags given and nothing else. */
  function PlainField(name: string, sortable: bool, filterable: bool, facetable: bool): SearchField {
    SearchField(name, StringField, Some(sortable), Some(filterable), Some(facetable), None, None, None, None, None)
  }

  function VectorProfileName(indexName: string): string { indexName + "HnswProfile" }
  function AlgorithmName(indexName: string): string { indexName + "Hnsw" }
  function VectorizerName(indexName: string): string { indexName + "OpenAI" }
  function SemanticConfigName(indexName: string): string { indexName + "-semantic-config" }

  /** The seven fields every index has, in order. */
  function BaseFields(indexName: string, dimensions: int): seq<SearchField> {
    [ PlainField("parent_id", true, true, true),
      PlainField("title", true, true, true),
      PlainField("blob_path", true, true, true),
      PlainField("source_address", true, true, true),
      SearchField("chunk_id", StringField, Some(true), Some(true), Some(true), Some(true), Some("keyword"), None, None, None),
      PlainField("chunk", false, false, false),
      SearchField("vector", SingleCollection, None, None, None, None, None,
                  Some(dimensions), Some(VectorProfileName(indexName)), Some(false)) ]
  }

  const PageNumberField: SearchField := PlainField("page_number", true, true, false)

  const HeaderFields: seq<SearchField> :=
    [ PlainField("header_1", false, false, false),
      PlainField("header_2", false, false, false),
      PlainField("header_3", false, false, false) ]

  /** The field list as it stands after the conditional append and extend. */
  function IndexFields(indexName: string, dimensions: int, addPageNumbers: bool, useDocumentLayout: bool)
    : seq<SearchField>
  {
    BaseFields(indexName, dimensions)
      + (if addPageNumbers then [PageNumberField] else [])
      + (if useDocumentLayout then HeaderFields else [])
  }

  /** Builds the field list the way create_index does: the base list, then append, then extend. */
  method AssembleFields(indexName: string, dimensions: int, addPageNumbers: bool, useDocumentLayout: bool)
    returns (fields: seq<SearchField>)
    ensures fields == IndexFields(indexName, dimensions, addPageNumbers, useDocumentLayout)
  {
    fields := BaseFields(indexName, dimensions);
    if addPageNumbers {
      fields := fields + [PageNumberField];
    }
    if useDocumentLayout {
      fields := fields + HeaderFields;
    }
  }

  /** The name of each field, in order. */
  function FieldNames(fields: seq<SearchField>): seq<string> {
    seq(|fields|, i requires 0 <= i < |fields| => fields[i].name)
  }

  const BaseNames: seq<string> :=
    ["parent_id", "title", "blob_path", "source_address", "chunk_id", "chunk", "vector"]

  const HeaderNames: seq<string> := ["header_1", "header_2", "header_3"]

  predicate Distinct(names: seq<string>) {
    forall i, j :: 0 <= i < j < |names| ==> names[i] != names[j]
  }

  // ---------------------------------------------------------------------------
  // Vector and semantic search

  function BuildVectorSearch(args: IndexArgs): VectorSearch {
    VectorSearch(
      [HnswAlgorithm(AlgorithmName(args.indexName))],
      [VectorSearchProfile(VectorProfileName(args.indexName), AlgorithmName(args.indexName), VectorizerName(args.indexName))],
      [OpenAiVectorizer(VectorizerName(args.indexName), "azureOpenAI", args.azureOpenAiEndpoint,
                        args.embeddingDeploymentName, args.modelName)])
  }

  function BuildSemanticSearch(args: IndexArgs): SemanticSearch {
    SemanticSearch([SemanticConfiguration(SemanticConfigName(args.indexName), ["chunk"])])
  }

  /** The index definition create_index submits. */
  function BuildIndex(args: IndexArgs): SearchIndexDef {
    SearchIndexDef(
      args.indexName,
      IndexFields(args.indexName, args.modelDimensions, args.addPageNumbers, args.useDocumentLayout),
      BuildVectorSearch(args),
      BuildSemanticSearch(args))
  }

  // ---------------------------------------------------------------------------
  // Properties of the schema

  /** With neither flag, the seven base fields in their order. */
  lemma BaseFieldOrder(indexName: string, dimensions: int)
    ensures FieldNames(IndexFields(indexName, dimensions, false, false)) == BaseNames
  {
    assert IndexFields(indexName, dimensions, false, false) == BaseFields(indexName, dimensions);
  }

  /** page_number follows the base fields iff asked for, and the headers come last iff layout is used. */
  lemma FieldNamesByFlags(indexName: string, dimensions: int, addPageNumbers: bool, useDocumentLayout: bool)
    ensures FieldNames(IndexFields(indexName, dimensions, addPageNumbers, useDocumentLayout))
         == BaseNames + (if addPageNumbers then ["page_number"] else []) + (if useDocumentLayout then HeaderNames else [])
    ensures |IndexFields(indexName, dimensions, addPageNumbers, useDocumentLayout)|
         == 7 + (if addPageNumbers then 1 else 0) + (if useDocumentLayout then 3 else 0)
  {
    var fields := IndexFields(indexName, dimensions, addPageNumbers, useDocumentLayout);
    var expected := BaseNames + (if addPageNumbers then ["page_number"] else []) + (if useDocumentLayout then HeaderNames else []);
    assert |FieldNames(fields)| == |expected|;
    forall i | 0 <= i < |fields| ensures FieldNames(fields)[i] == expected[i] {
      if i >= 7 && addPageNumbers && i == 7 {
      } else if i >= 7 {
        var k := i - 7 - (if addPageNumbers then 1 else 0);
        assert fields[i] == HeaderFields[k];
      }
    }
  }

  /** The extra fields appear exactly when their flag is set. */
  lemma ExtraFieldsIff(indexName: string, dimensions: int, addPageNumbers: bool, useDocumentLayout: bool)
    ensures var names := FieldNames(IndexFields(indexName, dimensions, addPageNumbers, useDocumentLayout));
      && ("page_number" in names <==> addPageNumbers)
      && ("header_1" in names <==> useDocumentLayout)
      && ("header_2" in names <==> useDocumentLayout)
      && ("header_3" in names <==> useDocumentLayout)
  {
    FieldNamesByFlags(indexName, dimensions, addPageNumbers, useDocumentLayout);
    var names := FieldNames(IndexFields(indexName, dimensions, addPageNumbers, useDocumentLayout));
    assert names == BaseNames + (if addPageNumbers then ["page_number"] else []) + (if useDocumentLayout then HeaderNames else []);
    NamesAbsent(addPageNumbers, useDocumentLayout);
  }

  lemma NamesAbsent(addPageNumbers: bool, useDocumentLayout: bool)
    ensures var names := BaseNames + (if addPageNumbers then ["page_number"] else []) + (if useDocumentLayout then HeaderNames else []);
      && ("page_number" in names <==> addPageNumbers)
      && ("header_1" in names <==> useDocumentLayout)
      && ("header_2" in names <==> useDocumentLayout)
      && ("header_3" in names <==> useDocumentLayout)
  {
    var names := BaseNames + (if addPageNumbers then ["page_number"] else []) + (if useDocumentLayout then HeaderNames else []);
    forall n | n in names
      ensures n == "page_number" ==> addPageNumbers
      ensures n in HeaderNames ==> useDocumentLayout
    {
      var i :| 0 <= i < |names| && names[i] == n;
      if i < 7 {
        assert n == BaseNames[i];
      } else if addPageNumbers && i == 7 {
      } else {
        assert n in HeaderNames;
        assert useDocumentLayout;
      }
    }
    if addPageNumbers { assert names[7] == "page_number"; }
    if useDocumentLayout {
      var h := |names| - 3;
      assert names[h] == "header_1" && names[h + 1] == "header_2" && names[h + 2] == "header_3";
    }
  }

  /** Whatever the flags, no two fields share a name. */
  lemma FieldNamesDistinct(indexName: string, dimensions: int, addPageNumbers: bool, useDocumentLayout: bool)
    ensures Distinct(FieldNames(IndexFields(indexName, dimensions, addPageNumbers, useDocumentLayout)))
  {
    FieldNamesByFlags(indexName, dimensions, addPageNumbers, useDocumentLayout);
    AllNamesDistinct();
    var all := BaseNames + ["page_number"] + HeaderNames;
    var names := BaseNames + (if addPageNumbers then ["page_number"] else []) + (if useDocumentLayout then HeaderNames else []);
    // names is all with the parts whose flag is off removed, so its indices map monotonically into all
    forall i, j | 0 <= i < j < |names| ensures names[i] != names[j] {
      var pi := Position(i, addPageNumbers);
      var pj := Position(j, addPageNumbers);
      assert names[i] == all[pi] && names[j] == all[pj];
    }
  }

  /** Where the i-th name of the flag-selected list sits in the full list. */
  function Position(i: nat, addPageNumbers: bool): nat {
    if i < 7 || addPageNumbers then i else i + 1
  }

  lemma AllNamesDistinct()
    ensures Distinct(BaseNames + ["page_number"] + HeaderNames)
  {
    var all := BaseNames + ["page_number"] + HeaderNames;
    assert all == ["parent_id", "title", "blob_path", "source_address", "chunk_id", "chunk", "vector",
                   "page_number", "header_1", "header_2", "header_3"];

  }

  /** Exactly one field is the key: chunk_id, analysed with the keyword analyzer. */
  lemma SingleKeyField(indexName: string, dimensions: int, addPageNumbers: bool, useDocumentLayout: bool)
    ensures var fields := IndexFields(indexName, dimensions, addPageNumbers, useDocumentLayout);
      && (forall i :: 0 <= i < |fields| ==> (fields[i].key == Some(true) <==> i == 4))
      && fields[4].name == "chunk_id"
      && fields[4].analyzerName == Some("keyword")
  {
    var fields := IndexFields(indexName, dimensions, addPageNumbers, useDocumentLayout);
    forall i | 0 <= i < |fields| ensures fields[i].key == Some(true) <==> i == 4 {
      if i >= 7 {
        assert fields[i] == PageNumberField || fields[i] in HeaderFields;
      }
    }
  }

  /**
   * The vector field has the embedding dimensions and a profile that is defined,
   * and that profile names exactly the algorithm and vectorizer that are defined.
   */
  lemma VectorSearchConsistent(args: IndexArgs)
    ensures var idx := BuildIndex(args);
      && idx.fields[6].name == "vector"
      && idx.fields[6].vectorSearchDimensions == Some(args.modelDimensions)
      && idx.fields[6].vectorSearchProfileName == Some(args.indexName + "HnswProfile")
      && |idx.vectorSearch.profiles| == 1
      && idx.vectorSearch.profiles[0].name == idx.fields[6].vectorSearchProfileName.value
      && idx.vectorSearch.profiles[0].algorithmConfigurationName == args.indexName + "Hnsw"
      && idx.vectorSearch.profiles[0].vectorizerName == args.indexName + "OpenAI"
      && (set a | a in idx.vectorSearch.algorithms :: a.name) == {idx.vectorSearch.profiles[0].algorithmConfigurationName}
      && (set v | v in idx.vectorSearch.vectorizers :: v.vectorizerName) == {idx.vectorSearch.profiles[0].vectorizerName}
  {
    var idx := BuildIndex(args);
    assert idx.fields[6] == BaseFields(args.indexName, args.modelDimensions)[6];
  }

  /** The semantic configuration is named after the index and ranks on chunk, a field of the index. */
  lemma SemanticConfigConsistent(args: IndexArgs)
    ensures var idx := BuildIndex(args);
      && idx.semanticSearch.configurations == [SemanticConfiguration(args.indexName + "-semantic-config", ["chunk"])]
      && "chunk" in FieldNames(idx.fields)
  {
    var idx := BuildIndex(args);
    assert FieldNames(idx.fields)[5] == "chunk";
  }

  // ---------------------------------------------------------------------------
  // Submission with the credential fallback

  datatype IndexCall =
    | CreateIndexCall(credential: Credential, index: SearchIndexDef)
    | CreateOrUpdateIndexCall(credential: Credential, index: SearchIndexDef)

  /**
   * create_index with the signed-in identity; when that raises, create_or_update_index
   * with AZURE_SEARCH_KEY. The service is the oracle `respond`; `calls` is what was
   * sent, in order, and `result` is what the caller sees. Without the key the
   * fallback's credential raises before its call is made.
   */
  method SubmitIndex(index: SearchIndexDef, env: Env, respond: IndexCall -> Outcome)
    returns (calls: seq<IndexCall>, result: Outcome)
    ensures 1 <= |calls| <= 2
    ensures calls[0] == CreateIndexCall(CliCredential, index)
    ensures respond(calls[0]).Done? ==> |calls| == 1 && result == Done
    ensures respond(calls[0]).Raised? && env.searchKey.None? ==>
      |calls| == 1 && result == Raised(KeyNotString)
    ensures respond(calls[0]).Raised? && env.searchKey.Some? ==>
      && calls == [calls[0], CreateOrUpdateIndexCall(KeyCredential(env.searchKey.value), index)]
      && result == respond(calls[1])
  {
    var first := CreateIndexCall(CliCredential, index);
    calls := [first];
    var outcome := respond(first);
    if outcome.Done? {
      result := Done;
    } else if env.searchKey.None? {
      result := Raised(KeyNotString);
    } else {
      var second := CreateOrUpdateIndexCall(KeyCredential(env.searchKey.value), index);
      calls := calls + [second];
      result := respond(second);
    }
  }

  /** AISearchIndex.create_index: build the definition, then submit it. */
  method CreateIndex(args: IndexArgs, env: Env, respond: IndexCall -> Outcome)
    returns (calls: seq<IndexCall>, result: Outcome)
    ensures 1 <= |calls| <= 2
    ensures forall i :: 0 <= i < |calls| ==> calls[i].index == BuildIndex(args)
    ensures calls[0].CreateIndexCall? && calls[0].credential == CliCredential
    ensures |calls| == 2 <==> respond(calls[0]).Raised? && env.searchKey.Some?
    ensures |calls| == 2 ==> calls[1].CreateOrUpdateIndexCall? && calls[1].credential == KeyCredential(env.searchKey.value)
    ensures respond(calls[0]).Raised? && env.searchKey.None? ==> result == Raised(KeyNotString)
    ensures !(respond(calls[0]).Raised? && env.searchKey.None?) ==> result == respond(calls[|calls| - 1])
  {
    var fields := AssembleFields(args.indexName, args.modelDimensions, args.addPageNumbers, args.useDocumentLayout);
    var index := SearchIndexDef(args.indexName, fields, BuildVectorSearch(args), BuildSemanticSearch(args));
    calls, result := SubmitIndex(index, env, respond);
  }
}
