/** The index definitions that `SetupIndexTextAsync` and
    `SetupIndexTextImageAsync` build and submit with `CreateOrUpdateIndexAsync`:
    fields, one HNSW algorithm, vector profiles, the OpenAI vectorizer and the
    semantic configuration. */
module IndexSchema {
  import opened Wrappers
  import opened DotNetText

  /** The field types the two indexes use: `Edm.String`, `Edm.Int32` and
      `Collection(Edm.Single)` (a vector). */
  datatype DataType = EdmString | EdmInt32 | SingleCollection

  datatype Field = Field(
    name: string,
    dataType: DataType,
    isKey: bool,
    isSearchable: bool,
    isFilterable: bool,
    isSortable: bool,
    dimensions: Option<int>,
    profileName: Option<string>)

  datatype HnswParameters = HnswParameters(m: int, efConstruction: int, efSearch: int, metric: string)

  datatype Algorithm = HnswAlgorithm(name: string, parameters: HnswParameters)

  /** A vector profile: the algorithm it uses and, optionally, the vectorizer
      that embeds query text for it. */
  datatype Profile = Profile(name: string, algorithmName: string, vectorizerName: Option<string>)

  datatype Vectorizer = AzureOpenAIVectorizer(
    name: string, resourceUri: string, modelName: string, deploymentName: string, apiKey: string)

  datatype SemanticConfig = SemanticConfig(name: string, titleField: string, contentFields: seq<string>)

  datatype Schema = Schema(
    name: string,
    fields: seq<Field>,
    algorithms: seq<Algorithm>,
    profiles: seq<Profile>,
    vectorizers: seq<Vectorizer>,
    semanticConfigs: seq<SemanticConfig>)

  /** The Azure OpenAI settings the helper reads at construction.
      `endpointIsAbsoluteUri` says whether `new Uri(endpoint)` accepts the
      endpoint; URI parsing belongs to the runtime and is taken as given. */
  datatype OpenAIConfig = OpenAIConfig(
    endpoint: string,
    endpointIsAbsoluteUri: bool,
    apiKey: string,
    embeddingModel: string,
    embeddingDeployment: string,
    embeddingDimensions: string)

  const UriFormatMessage: string := "Invalid URI: The format of the URI could not be determined."

  const HnswConfigName: string := "golfHnsw"
  const SemanticConfigName: string := "golf-semantic-config"
  const TextProfileName: string := "golf-vector-profile"
  const TextVectorizerName: string := "golfOpenAIVectorizer"
  const MultiTextProfileName: string := "text-vector-profile"
  const MultiTextVectorizerName: string := "golfOpenAITextVectorizer"
  const ImageProfileName: string := "image-vector-profile"
  const TextVectorDimensions: int := 1536
  const ImageVectorDimensions: int := 1024

  // --- field constructors of the search SDK --------------------------------

  /** `new SimpleField(name, type)`: not searchable. */
  function SimpleField(name: string, t: DataType, key: bool, filterable: bool, sortable: bool): Field {
    Field(name, t, key, false, filterable, sortable, None, None)
  }

  /** `new SearchableField(name)`: a searchable string. */
  function SearchableField(name: string, filterable: bool, sortable: bool): Field {
    Field(name, EdmString, false, true, filterable, sortable, None, None)
  }

  /** `new SearchField(name, Collection(Single)) { IsSearchable = true, ... }`. */
  function VectorField(name: string, dimensions: int, profile: string): Field {
    Field(name, SingleCollection, false, true, false, false, Some(dimensions), Some(profile))
  }

  /** The twelve scalar fields, in the order both builders declare them. */
  const ScalarFields: seq<Field> := [
    SimpleField("id", EdmString, true, true, false),
    SearchableField("manufacturer", true, true),
    SearchableField("usga_lot_num", true, false),
    SearchableField("pole_marking", true, false),
    SearchableField("colour", true, false),
    SearchableField("constCode", true, false),
    SearchableField("ballSpecs", true, false),
    SimpleField("dimples", EdmInt32, false, true, true),
    SearchableField("spin", true, false),
    SearchableField("pole_2", true, false),
    SearchableField("seam_marking", true, false),
    SimpleField("imageUrl", EdmString, false, false, false)
  ]

  const GolfHnsw: Algorithm := HnswAlgorithm(HnswConfigName, HnswParameters(4, 400, 500, "cosine"))

  function OpenAIVectorizer(name: string, cfg: OpenAIConfig): Vectorizer {
    AzureOpenAIVectorizer(name, cfg.endpoint, cfg.embeddingModel, cfg.embeddingDeployment, cfg.apiKey)
  }

  // --- well-formedness -------------------------------------------------------

  /** Names of the fields flagged as key, in order. */
  function KeyFieldNames(fields: seq<Field>): (names: seq<string>)
    ensures |names| <= |fields|
  {
    if fields == [] then []
    else KeyFieldNames(fields[..|fields| - 1])
         + (if fields[|fields| - 1].isKey then [fields[|fields| - 1].name] else [])
  }

  predicate HasField(s: Schema, name: string) {
    exists i :: 0 <= i < |s.fields| && s.fields[i].name == name
  }

  predicate HasSearchableField(s: Schema, name: string) {
    exists i :: 0 <= i < |s.fields| && s.fields[i].name == name && s.fields[i].isSearchable
  }

  predicate HasAlgorithm(s: Schema, name: string) {
    exists i :: 0 <= i < |s.algorithms| && s.algorithms[i].name == name
  }

  predicate HasProfile(s: Schema, name: string) {
    exists i :: 0 <= i < |s.profiles| && s.profiles[i].name == name
  }

  predicate HasVectorizer(s: Schema, name: string) {
    exists i :: 0 <= i < |s.vectorizers| && s.vectorizers[i].name == name
  }

  /** What the search service needs of a definition to accept it: one key
      field, every vector field on an existing profile and with a dimension,
      every profile on an existing algorithm and (when it names one) an
      existing vectorizer, and semantic fields that exist and are searchable. */
  predicate WellFormed(s: Schema) {
    OneKey(s) && VectorFieldsProfiled(s) && ProfilesResolve(s) && SemanticFieldsSearchable(s)
  }

  predicate OneKey(s: Schema) {
    |KeyFieldNames(s.fields)| == 1
  }

  predicate VectorFieldsProfiled(s: Schema) {
    forall i :: 0 <= i < |s.fields| && s.fields[i].dataType == SingleCollection ==>
      s.fields[i].dimensions.Some? && s.fields[i].profileName.Some?
      && HasProfile(s, s.fields[i].profileName.value)
  }

  predicate ProfilesResolve(s: Schema) {
    forall i :: 0 <= i < |s.profiles| ==>
      HasAlgorithm(s, s.profiles[i].algorithmName)
      && (s.profiles[i].vectorizerName.Some? ==> HasVectorizer(s, s.profiles[i].vectorizerName.value))
  }

  predicate SemanticFieldsSearchable(s: Schema) {
    forall c :: c in s.semanticConfigs ==>
      HasSearchableField(s, c.titleField)
      && forall n :: n in c.contentFields ==> HasSearchableField(s, n)
  }

  // --- the two builders ------------------------------------------------------

  /** The text-only index of `SetupIndexTextAsync`, given the parsed
      embedding dimension. */
  function TextSchemaWith(indexName: string, cfg: OpenAIConfig, dimensions: int): Schema {
    Schema(
      indexName,
      ScalarFields + [VectorField("vectorContent", dimensions, TextProfileName)],
      [GolfHnsw],
      [Profile(TextProfileName, HnswConfigName, Some(TextVectorizerName))],
      [OpenAIVectorizer(TextVectorizerName, cfg)],
      [SemanticConfig(SemanticConfigName, "manufacturer", ["pole_marking", "seam_marking"])])
  }

  /** `SetupIndexTextAsync`'s definition. `new Uri(endpoint)` is evaluated
      before `int.Parse(dimensions)`, so a bad endpoint is reported first. */
  function TextSchema(indexName: string, cfg: OpenAIConfig): (r: Result<Schema>)
    ensures r.Ok? <==> cfg.endpointIsAbsoluteUri && ParseInt32(cfg.embeddingDimensions).Ok?
    ensures r.Ok? ==> WellFormed(r.value) && r.value.name == indexName
    ensures r.Ok? ==> r.value == TextSchemaWith(indexName, cfg, ParseInt32(cfg.embeddingDimensions).value)
  {
    if !cfg.endpointIsAbsoluteUri then Err(UriFormatMessage)
    else
      var d :- ParseInt32(cfg.embeddingDimensions);
      TextSchemaWellFormed(indexName, cfg, d);
      Ok(TextSchemaWith(indexName, cfg, d))
  }

  /** The multi-modal index of `SetupIndexTextImageAsync`: a 1536-dimension
      text vector and a 1024-dimension image vector, whose profile names no
      vectorizer because image vectors are computed outside the index. */
  function MultiModalSchemaWith(indexName: string, cfg: OpenAIConfig): Schema {
    Schema(
      indexName,
      ScalarFields + [VectorField("textVector", TextVectorDimensions, MultiTextProfileName),
                      VectorField("imageVector", ImageVectorDimensions, ImageProfileName)],
      [GolfHnsw],
      [Profile(MultiTextProfileName, HnswConfigName, Some(MultiTextVectorizerName)),
       Profile(ImageProfileName, HnswConfigName, None)],
      [OpenAIVectorizer(MultiTextVectorizerName, cfg)],
      [SemanticConfig(SemanticConfigName, "manufacturer",
                      ["pole_marking", "pole_2", "colour", "seam_marking"])])
  }

  /** `SetupIndexTextImageAsync`'s definition; only `new Uri(endpoint)` can
      throw while it is built. */
  function MultiModalSchema(indexName: string, cfg: OpenAIConfig): (r: Result<Schema>)
    ensures r.Ok? <==> cfg.endpointIsAbsoluteUri
    ensures r.Ok? ==> WellFormed(r.value) && r.value == MultiModalSchemaWith(indexName, cfg)
  {
    if !cfg.endpointIsAbsoluteUri then Err(UriFormatMessage)
    else
      MultiModalSchemaWellFormed(indexName, cfg);
      Ok(MultiModalSchemaWith(indexName, cfg))
  }

  // --- properties of the builders ----------------------------------------------

  lemma ScalarFieldsKey()
    ensures KeyFieldNames(ScalarFields) == ["id"]
  {
    ScalarFieldsNamed();
    OnlyFirstIsKey(ScalarFields);
  }

  /** When only the first field is a key, it alone is listed. */
  lemma {:induction false} OnlyFirstIsKey(fields: seq<Field>)
    requires |fields| >= 1 && fields[0].isKey
    requires forall k :: 1 <= k < |fields| ==> !fields[k].isKey
    ensures KeyFieldNames(fields) == [fields[0].name]
    decreases |fields|
  {
    if |fields| == 1 {
      assert fields[..0] == [];
    } else {
      var n := |fields| - 1;
      OnlyFirstIsKey(fields[..n]);
    }
  }

  lemma KeyFieldNamesAppend(fields: seq<Field>, extra: seq<Field>)
    requires forall i :: 0 <= i < |extra| ==> !extra[i].isKey
    ensures KeyFieldNames(fields + extra) == KeyFieldNames(fields)
    decreases |extra|
  {
    if extra == [] {
      assert fields + extra == fields;
    } else {
      KeyFieldNamesAppend(fields, extra[..|extra| - 1]);
      assert (fields + extra)[..|fields + extra| - 1] == fields + extra[..|extra| - 1];
    }
  }

  lemma TextSchemaWellFormed(indexName: string, cfg: OpenAIConfig, d: int)
    ensures WellFormed(TextSchemaWith(indexName, cfg, d))
  {
    var s := TextSchemaWith(indexName, cfg, d);
    ScalarFieldsKey();
    ScalarFieldsNamed();
    assert forall i :: 0 <= i < 12 ==> s.fields[i] == ScalarFields[i];
    KeyFieldNamesAppend(ScalarFields, [VectorField("vectorContent", d, TextProfileName)]);
    assert s.profiles[0].name == TextProfileName;
    assert s.algorithms[0].name == HnswConfigName;
    assert s.vectorizers[0].name == TextVectorizerName;
    assert s.fields[1].name == "manufacturer" && s.fields[1].isSearchable;
    assert s.fields[3].name == "pole_marking" && s.fields[3].isSearchable;
    assert s.fields[10].name == "seam_marking" && s.fields[10].isSearchable;
  }

  lemma MultiModalSchemaWellFormed(indexName: string, cfg: OpenAIConfig)
    ensures WellFormed(MultiModalSchemaWith(indexName, cfg))
  {
    var s := MultiModalSchemaWith(indexName, cfg);
    ScalarFieldsKey();
    KeyFieldNamesAppend(ScalarFields, s.fields[12..]);
    assert s.fields == ScalarFields + s.fields[12..];
    MultiModalVectorFields(indexName, cfg);
    MultiModalProfiles(indexName, cfg);
    MultiModalSemantic(indexName, cfg);
  }

  lemma MultiModalVectorFields(indexName: string, cfg: OpenAIConfig)
    ensures VectorFieldsProfiled(MultiModalSchemaWith(indexName, cfg))
  {
    var s := MultiModalSchemaWith(indexName, cfg);
    ScalarFieldsNamed();
    assert forall i :: 0 <= i < 12 ==> s.fields[i] == ScalarFields[i];
    assert s.profiles[0].name == MultiTextProfileName;
    assert s.profiles[1].name == ImageProfileName;
  }

  lemma MultiModalProfiles(indexName: string, cfg: OpenAIConfig)
    ensures ProfilesResolve(MultiModalSchemaWith(indexName, cfg))
  {
    var s := MultiModalSchemaWith(indexName, cfg);
    assert s.algorithms[0].name == HnswConfigName;
    assert s.vectorizers[0].name == MultiTextVectorizerName;
  }

  lemma MultiModalSemantic(indexName: string, cfg: OpenAIConfig)
    ensures SemanticFieldsSearchable(MultiModalSchemaWith(indexName, cfg))
  {
    var s := MultiModalSchemaWith(indexName, cfg);
    assert s.fields[1].name == "manufacturer" && s.fields[1].isSearchable;
    assert s.fields[3].name == "pole_marking" && s.fields[3].isSearchable;
    assert s.fields[4].name == "colour" && s.fields[4].isSearchable;
    assert s.fields[9].name == "pole_2" && s.fields[9].isSearchable;
    assert s.fields[10].name == "seam_marking" && s.fields[10].isSearchable;
  }

  /** The text-only definition: 13 fields, `id` the only key, and
      `vectorContent` sized by the parsed embedding-dimension setting on the
      profile that uses `golfHnsw` and the OpenAI vectorizer. */
  lemma TextSchemaShape(indexName: string, cfg: OpenAIConfig)
    requires TextSchema(indexName, cfg).Ok?
    ensures var s := TextSchema(indexName, cfg).value;
      && |s.fields| == 13
      && KeyFieldNames(s.fields) == ["id"]
      && s.fields[12] == Field("vectorContent", SingleCollection, false, true, false, false,
                               Some(ParseInt32(cfg.embeddingDimensions).value), Some(TextProfileName))
      && s.algorithms == [HnswAlgorithm("golfHnsw", HnswParameters(4, 400, 500, "cosine"))]
      && s.profiles == [Profile(TextProfileName, "golfHnsw", Some(TextVectorizerName))]
      && |s.vectorizers| == 1 && s.vectorizers[0].name == TextVectorizerName
      && s.semanticConfigs == [SemanticConfig("golf-semantic-config", "manufacturer",
                                              ["pole_marking", "seam_marking"])]
  {
    ScalarFieldsKey();
    var d := ParseInt32(cfg.embeddingDimensions).value;
    KeyFieldNamesAppend(ScalarFields, [VectorField("vectorContent", d, TextProfileName)]);
  }

  /** The multi-modal definition: 14 fields, `id` the only key, `textVector`
      (1536) on the text profile, `imageVector` (1024) on a profile with no
      vectorizer, and `golfOpenAITextVectorizer` the only vectorizer. */
  lemma MultiModalSchemaShape(indexName: string, cfg: OpenAIConfig)
    requires MultiModalSchema(indexName, cfg).Ok?
    ensures var s := MultiModalSchema(indexName, cfg).value;
      && |s.fields| == 14
      && KeyFieldNames(s.fields) == ["id"]
      && s.fields[12] == Field("textVector", SingleCollection, false, true, false, false,
                               Some(1536), Some("text-vector-profile"))
      && s.fields[13] == Field("imageVector", SingleCollection, false, true, false, false,
                               Some(1024), Some("image-vector-profile"))
      && s.algorithms == [HnswAlgorithm("golfHnsw", HnswParameters(4, 400, 500, "cosine"))]
      && s.profiles == [Profile("text-vector-profile", "golfHnsw", Some("golfOpenAITextVectorizer")),
                        Profile("image-vector-profile", "golfHnsw", None)]
      && |s.vectorizers| == 1 && s.vectorizers[0].name == "golfOpenAITextVectorizer"
      && s.semanticConfigs == [SemanticConfig("golf-semantic-config", "manufacturer",
                                              ["pole_marking", "pole_2", "colour", "seam_marking"])]
  {
    ScalarFieldsKey();
    var s := MultiModalSchema(indexName, cfg).value;
    KeyFieldNamesAppend(ScalarFields, s.fields[12..]);
    assert s.fields == ScalarFields + s.fields[12..];
  }

  // --- submitting a definition -------------------------------------------------

  /** What a `SetupIndex*Async` call did: the definition it handed to
      `CreateOrUpdateIndexAsync` (None when building it threw first) and how
      the call ended. */
  datatype Submission = Submission(submitted: Option<Schema>, outcome: Outcome)

  function Submit(built: Result<Schema>, createOrUpdate: Schema -> Outcome): (r: Submission)
    ensures built.Err? ==> r == Submission(None, Fail(built.message))
    ensures built.Ok? ==> r == Submission(Some(built.value), createOrUpdate(built.value))
  {
    match built
    case Err(e) => Submission(None, Fail(e))
    case Ok(s) => Submission(Some(s), createOrUpdate(s))
  }

  /** `SetupIndexTextAsync`: build the text-only definition, then submit it. */
  function SetupIndexText(indexName: string, cfg: OpenAIConfig, createOrUpdate: Schema -> Outcome): (r: Submission)
    ensures r.submitted.Some? ==> WellFormed(r.submitted.value) && r.outcome == createOrUpdate(r.submitted.value)
    ensures r.submitted.None? <==> !cfg.endpointIsAbsoluteUri || ParseInt32(cfg.embeddingDimensions).Err?
    ensures r.submitted.Some? ==> TextSchema(indexName, cfg) == Ok(r.submitted.value)
    ensures r.submitted.None? ==> r.outcome.Fail?
  {
    Submit(TextSchema(indexName, cfg), createOrUpdate)
  }

  /** `SetupIndexTextImageAsync`: build the multi-modal definition, then
      submit it. */
  function SetupIndexTextImage(indexName: string, cfg: OpenAIConfig, createOrUpdate: Schema -> Outcome): (r: Submission)
    ensures r.submitted.Some? ==> WellFormed(r.submitted.value) && r.outcome == createOrUpdate(r.submitted.value)
    ensures r.submitted.None? <==> !cfg.endpointIsAbsoluteUri
    ensures r.submitted.Some? ==> MultiModalSchema(indexName, cfg) == Ok(r.submitted.value)
    ensures r.submitted.None? ==> r.outcome == Fail(UriFormatMessage)
  {
    Submit(MultiModalSchema(indexName, cfg), createOrUpdate)
  }

  /** A dimension setting that is not an integer text (a letter, a decimal
      point, an inner space, no digit at all) makes `int.Parse` throw, so the
      index engine is never called; with a valid endpoint the format
      exception is what the caller sees. */
  lemma NonNumericDimensionNeverSubmitted(indexName: string, cfg: OpenAIConfig, createOrUpdate: Schema -> Outcome)
    requires forall v :: !IsIntegerText(cfg.embeddingDimensions, v)
    ensures SetupIndexText(indexName, cfg, createOrUpdate).submitted == None
    ensures SetupIndexText(indexName, cfg, createOrUpdate).outcome.Fail?
    ensures cfg.endpointIsAbsoluteUri ==>
              SetupIndexText(indexName, cfg, createOrUpdate).outcome == Fail(FormatMessage(cfg.embeddingDimensions))
  {
    ParseNonIntegerText(cfg.embeddingDimensions);
  }

  /** An integer dimension setting, white space, sign and leading zeros
      allowed, becomes `vectorContent`'s dimension when it fits in 32 bits;
      otherwise the overflow exception stops the submission. */
  lemma DecimalDimensionIsUsed(indexName: string, cfg: OpenAIConfig, d: int, createOrUpdate: Schema -> Outcome)
    requires cfg.endpointIsAbsoluteUri && IsIntegerText(cfg.embeddingDimensions, d)
    ensures InInt32Range(d) ==> TextSchema(indexName, cfg).Ok?
                                && TextSchema(indexName, cfg).value.fields[12].dimensions == Some(d)
    ensures InInt32Range(d) ==> SetupIndexText(indexName, cfg, createOrUpdate).submitted.Some?
                                && SetupIndexText(indexName, cfg, createOrUpdate).submitted.value.fields[12].dimensions == Some(d)
    ensures !InInt32Range(d) ==> SetupIndexText(indexName, cfg, createOrUpdate) == Submission(None, Fail(OverflowMessage))
  {
    ParseIntegerText(cfg.embeddingDimensions, d);
  }

  // --- the fields ListDocumentsAsync selects -----------------------------------

  /** Names of the fields whose type is not `Collection(Single)`, in schema
      order. */
  function NonVectorFieldNames(fields: seq<Field>): (names: seq<string>)
    ensures |names| <= |fields|
    ensures forall n :: n in names ==> exists i :: 0 <= i < |fields| && fields[i].name == n
                                                  && fields[i].dataType != SingleCollection
  {
    if fields == [] then []
    else
      var last := fields[|fields| - 1];
      NonVectorFieldNames(fields[..|fields| - 1]) + (if last.dataType != SingleCollection then [last.name] else [])
  }

  /** Every non-vector field is selected. */
  lemma {:induction false} NonVectorFieldNamesComplete(fields: seq<Field>, i: int)
    requires 0 <= i < |fields| && fields[i].dataType != SingleCollection
    ensures fields[i].name in NonVectorFieldNames(fields)
    decreases |fields|
  {
    if i < |fields| - 1 {
      NonVectorFieldNamesComplete(fields[..|fields| - 1], i);
    }
  }

  /** Listing either index with vectors suppressed selects exactly its twelve
      scalar fields. */
  lemma NonVectorFieldsOfBuiltSchemas(indexName: string, cfg: OpenAIConfig)
    ensures TextSchema(indexName, cfg).Ok? ==>
      NonVectorFieldNames(TextSchema(indexName, cfg).value.fields) == ScalarFieldNames
    ensures MultiModalSchema(indexName, cfg).Ok? ==>
      NonVectorFieldNames(MultiModalSchema(indexName, cfg).value.fields) == ScalarFieldNames
  {
    if TextSchema(indexName, cfg).Ok? {
      TextSchemaNonVector(indexName, cfg, ParseInt32(cfg.embeddingDimensions).value);
    }
    if MultiModalSchema(indexName, cfg).Ok? {
      MultiModalNonVector(indexName, cfg);
    }
  }

  lemma TextSchemaNonVector(indexName: string, cfg: OpenAIConfig, d: int)
    ensures NonVectorFieldNames(TextSchemaWith(indexName, cfg, d).fields) == ScalarFieldNames
  {
    ScalarNonVector();
    NonVectorAppendVectors(ScalarFields, [VectorField("vectorContent", d, TextProfileName)]);
  }

  lemma MultiModalNonVector(indexName: string, cfg: OpenAIConfig)
    ensures NonVectorFieldNames(MultiModalSchemaWith(indexName, cfg).fields) == ScalarFieldNames
  {
    var vectors := [VectorField("textVector", TextVectorDimensions, MultiTextProfileName),
                    VectorField("imageVector", ImageVectorDimensions, ImageProfileName)];
    ScalarNonVector();
    NonVectorAppendVectors(ScalarFields, vectors);
    assert MultiModalSchemaWith(indexName, cfg).fields == ScalarFields + vectors;
  }

  /** Appending vector fields adds nothing to the selection. */
  lemma {:induction false} NonVectorAppendVectors(fields: seq<Field>, extra: seq<Field>)
    requires forall i :: 0 <= i < |extra| ==> extra[i].dataType == SingleCollection
    ensures NonVectorFieldNames(fields + extra) == NonVectorFieldNames(fields)
    decreases |extra|
  {
    if extra == [] {
      assert fields + extra == fields;
    } else {
      NonVectorAppendVectors(fields, extra[..|extra| - 1]);
      assert (fields + extra)[..|fields + extra| - 1] == fields + extra[..|extra| - 1];
    }
  }

  const ScalarFieldNames: seq<string> := [
    "id", "manufacturer", "usga_lot_num", "pole_marking", "colour", "constCode",
    "ballSpecs", "dimples", "spin", "pole_2", "seam_marking", "imageUrl"]

  lemma ScalarFieldsNamed()
    ensures |ScalarFields| == |ScalarFieldNames| == 12
    ensures ScalarFields[0].isKey && ScalarFields[0].name == "id"
    ensures forall k :: 1 <= k < |ScalarFields| ==> !ScalarFields[k].isKey
    ensures forall k :: 0 <= k < |ScalarFields| ==>
              ScalarFields[k].dataType != SingleCollection && ScalarFields[k].name == ScalarFieldNames[k]
  {
  }

  lemma ScalarNonVector()
    ensures NonVectorFieldNames(ScalarFields) == ScalarFieldNames
  {
    ScalarFieldsNamed();
    NoVectorFieldsAllNamed(ScalarFields, ScalarFieldNames);
  }

  /** Without vector fields, every field's name is selected, in order. */
  lemma {:induction false} NoVectorFieldsAllNamed(fields: seq<Field>, names: seq<string>)
    requires |fields| == |names|
    requires forall k :: 0 <= k < |fields| ==> fields[k].dataType != SingleCollection && fields[k].name == names[k]
    ensures NonVectorFieldNames(fields) == names
    decreases |fields|
  {
    if fields != [] {
      var n := |fields| - 1;
      NoVectorFieldsAllNamed(fields[..n], names[..n]);
      assert names == names[..n] + [names[n]];
    }
  }

}
