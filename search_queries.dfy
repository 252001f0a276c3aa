/** The query side of the search helper: `SearchTextOnly` (text, hybrid or
    semantic search with a relevance threshold), `SearchImageOnly` (a raw
    image-vector query with no threshold) and the field selection of
    `ListDocumentsAsync`. The search engine is a function from the request
    it receives to the hits it returns, or to the exception it throws. */
module SearchQueries {
  import opened Wrappers
  import opened DotNetText
  import opened GolfBallData
  import opened IndexSchema

  datatype QueryType = Unset | Semantic

  datatype VectorQuery =
    | VectorizableTextQuery(text: string, k: int, fields: seq<string>)
    | VectorizedQuery(vector: seq<real>, k: int, fields: seq<string>)

  datatype SemanticOptions = SemanticOptions(configurationName: string, extractiveCaption: bool, extractiveAnswer: bool)

  datatype SearchOptions = SearchOptions(
    filter: Option<string>,
    size: Option<int>,
    select: seq<string>,
    includeTotalCount: bool,
    vectorQueries: seq<VectorQuery>,
    queryType: QueryType,
    semanticSearch: Option<SemanticOptions>)

  /** The two arguments of `SearchAsync`: the search text (null for a pure
      vector query) and the options. */
  datatype SearchRequest = SearchRequest(searchText: Option<string>, options: SearchOptions)

  /** One result: the base score, the semantic reranker score when the
      engine computed one, and the document (which may be null). */
  datatype Hit = Hit(score: Option<real>, rerankerScore: Option<real>, document: Option<Document>)

  const TextSelect: seq<string> := ["id", "manufacturer", "pole_marking", "colour", "seam_marking"]

  const ImageSelect: seq<string> := [
    "id", "manufacturer", "usga_lot_num", "pole_marking", "colour", "constCode",
    "ballSpecs", "dimples", "spin", "pole_2", "seam_marking", "imageUrl"]

  const GolfSemanticOptions: SemanticOptions := SemanticOptions("golf-semantic-config", true, true)

  /** The threshold used when `textOnly` is set. */
  const TextOnlyThreshold: real := 0.03

  /** `minRerankerScore`'s default; neither controller passes another value. */
  const DefaultMinRerankerScore: real := 2.0

  const NullReferenceMessage: string := "Object reference not set to an instance of an object."

  function KeyNotFoundMessage(key: string): string {
    "The given key '" + key + "' was not present in the dictionary."
  }

  // --- reading a returned document ---------------------------------------------

  /** `doc[key].ToString()`: a missing key or a null value throws. */
  function FieldString(doc: Document, key: string): (r: Result<string>)
    ensures r.Ok? <==> key in doc && doc[key] != NullValue
    ensures r.Ok? && doc[key].Text? ==> r.value == doc[key].s
  {
    if key !in doc then Err(KeyNotFoundMessage(key))
    else match doc[key]
      case NullValue => Err(NullReferenceMessage)
      case Text(s) => Ok(s)
      case Number(n) => Ok(IntToString(n))
  }

  /** A 32-bit number read as a string parses back to the same number. */
  lemma NumberFieldRoundTrip(doc: Document, key: string)
    requires key in doc && doc[key].Number? && InInt32Range(doc[key].n)
    ensures FieldString(doc, key).Ok? && ParseInt32(FieldString(doc, key).value) == Ok(doc[key].n)
  {
    ParseIntToString(doc[key].n);
  }

  predicate Readable(doc: Document, key: string) {
    key in doc && doc[key] != NullValue
  }

  /** `Convert.ToInt32(doc[key])`: null converts to 0, a number must fit in
      32 bits, a string goes through `int.Parse`. */
  function FieldInt32(doc: Document, key: string): (r: Result<int>)
    ensures r.Ok? ==> InInt32Range(r.value)
    ensures key in doc && doc[key] == NullValue ==> r == Ok(0)
    ensures key in doc && doc[key].Number? ==>
              (r.Ok? <==> InInt32Range(doc[key].n)) && (r.Ok? ==> r.value == doc[key].n)
              && (r.Err? ==> r.message == OverflowMessage)
    ensures key in doc && doc[key].Text? ==> r == ParseInt32(doc[key].s)
    ensures key !in doc ==> r == Err(KeyNotFoundMessage(key))
  {
    if key !in doc then Err(KeyNotFoundMessage(key))
    else match doc[key]
      case NullValue => Ok(0)
      case Number(n) => if InInt32Range(n) then Ok(n) else Err(OverflowMessage)
      case Text(s) => ParseInt32(s)
  }

  // --- SearchTextOnly ------------------------------------------------------------

  /** `RerankerScore ?? Score`. */
  function EffectiveScore(h: Hit): Option<real> {
    if h.rerankerScore.Some? then h.rerankerScore else h.score
  }

  function Threshold(textOnly: bool, minRerankerScore: real): real {
    if textOnly then TextOnlyThreshold else minRerankerScore
  }

  /** `relevanceScore >= threshold` on a nullable double: false when null. */
  predicate Accepts(h: Hit, threshold: real) {
    EffectiveScore(h).Some? && EffectiveScore(h).value >= threshold
  }

  /** The hits that reach the threshold, in engine order. */
  function Kept(hits: seq<Hit>, threshold: real): (kept: seq<Hit>)
    ensures |kept| <= |hits|
    ensures forall i :: 0 <= i < |kept| ==> Accepts(kept[i], threshold)
  {
    if hits == [] then []
    else
      var last := hits[|hits| - 1];
      Kept(hits[..|hits| - 1], threshold) + (if Accepts(last, threshold) then [last] else [])
  }

  /** The record `SearchTextOnly` builds from a kept hit: only the five
      selected fields are set, everything else keeps its default. With a null
      document each `?.` yields null and `?? String.Empty` applies; with a
      document, a missing key or a null value throws. */
  function MapTextHit(h: Hit): (r: Result<GolfBallV1>)
    ensures h.document.None? ==> r == Ok(NewGolfBallV1("").(manufacturer := "", poleMarking := "", colour := "", seamMarking := ""))
    ensures h.document.Some? ==>
      (r.Ok? <==> var doc := h.document.value;
                  Readable(doc, "id") && Readable(doc, "manufacturer") && Readable(doc, "pole_marking")
                  && Readable(doc, "colour") && Readable(doc, "seam_marking"))
    ensures r.Ok? ==> r.value.usgaLotNum == "" && r.value.constCode == "" && r.value.ballSpecs == ""
                      && r.value.dimples == 0 && r.value.spin == "" && r.value.pole2 == ""
                      && r.value.imageUrl == "" && r.value.vectorContent == []
    ensures r.Ok? && h.document.Some? ==>
      && Ok(r.value.id) == FieldString(h.document.value, "id")
      && Ok(r.value.manufacturer) == FieldString(h.document.value, "manufacturer")
      && Ok(r.value.poleMarking) == FieldString(h.document.value, "pole_marking")
      && Ok(r.value.colour) == FieldString(h.document.value, "colour")
      && Ok(r.value.seamMarking) == FieldString(h.document.value, "seam_marking")
  {
    match h.document
    case None => Ok(NewGolfBallV1(""))
    case Some(doc) =>
      var id :- FieldString(doc, "id");
      var manufacturer :- FieldString(doc, "manufacturer");
      var poleMarking :- FieldString(doc, "pole_marking");
      var colour :- FieldString(doc, "colour");
      var seamMarking :- FieldString(doc, "seam_marking");
      Ok(NewGolfBallV1(id).(manufacturer := manufacturer, poleMarking := poleMarking,
                            colour := colour, seamMarking := seamMarking))
  }

  /** `SearchTextOnly`: compose the request from the three flags, run it,
      and keep each hit whose effective score reaches the threshold, mapped to
      a record. `sent` is the request the engine received. */
  method SearchTextOnly(
    engine: SearchRequest -> Result<seq<Hit>>,
    query: string, k: int, top: int, filter: Option<string>,
    textOnly: bool, hybrid: bool, semantic: bool, minRerankerScore: real)
    returns (sent: SearchRequest, result: Result<seq<GolfBallV1>>)
    ensures sent.options.filter == filter && sent.options.size == Some(top)
    ensures sent.options.select == TextSelect && sent.options.includeTotalCount
    ensures sent.options.vectorQueries ==
              (if textOnly then [] else [VectorizableTextQuery(query, k, ["vectorContent"])])
    ensures sent.options.queryType == Semantic <==> hybrid || semantic
    ensures sent.options.semanticSearch == (if hybrid || semantic then Some(GolfSemanticOptions) else None)
    ensures sent.searchText == (if textOnly || hybrid || semantic then Some(query) else None)
    ensures engine(sent).Err? ==> result == Err(engine(sent).message)
    ensures engine(sent).Ok? ==>
              result == MapAll(Kept(engine(sent).value, Threshold(textOnly, minRerankerScore)), MapTextHit)
  {
    var options := SearchOptions(filter, Some(top), TextSelect, true, [], Unset, None);
    if !textOnly {
      options := options.(vectorQueries := [VectorizableTextQuery(query, k, ["vectorContent"])]);
    }
    if hybrid || semantic {
      options := options.(queryType := Semantic, semanticSearch := Some(GolfSemanticOptions));
    }
    var queryText := if textOnly || hybrid || semantic then Some(query) else None;
    sent := SearchRequest(queryText, options);

    var response := engine(sent);
    if response.Err? {
      result := Err(response.message);
      return;
    }
    result := KeepAndMapTextHits(response.value, Threshold(textOnly, minRerankerScore));
  }

  /** The `await foreach` of `SearchTextOnly`: each hit reaching the
      threshold is mapped and appended, in engine order; a hit that cannot be
      read ends the search with its exception. */
  method KeepAndMapTextHits(hits: seq<Hit>, threshold: real) returns (result: Result<seq<GolfBallV1>>)
    ensures result == MapAll(Kept(hits, threshold), MapTextHit)
  {
    var documents: seq<GolfBallV1> := [];
    var i := 0;
    while i < |hits|
      invariant 0 <= i <= |hits|
      invariant MapAll(Kept(hits[..i], threshold), MapTextHit) == Ok(documents)
    {
      var hit := hits[i];
      KeepAndMapStep(hits, i, threshold, documents);
      if Accepts(hit, threshold) {
        var mapped := MapTextHit(hit);
        if mapped.Err? {
          result := Err(mapped.message);
          return;
        }
        documents := documents + [mapped.value];
      }
      i := i + 1;
    }
    assert hits[..|hits|] == hits;
    result := Ok(documents);
  }

  /** One iteration of the result loop, after the hits before `i` were
      kept and mapped into `documents`. */
  lemma KeepAndMapStep(hits: seq<Hit>, i: int, threshold: real, documents: seq<GolfBallV1>)
    requires 0 <= i < |hits|
    requires MapAll(Kept(hits[..i], threshold), MapTextHit) == Ok(documents)
    ensures !Accepts(hits[i], threshold) ==> MapAll(Kept(hits[..i + 1], threshold), MapTextHit) == Ok(documents)
    ensures Accepts(hits[i], threshold) && MapTextHit(hits[i]).Ok? ==>
              MapAll(Kept(hits[..i + 1], threshold), MapTextHit) == Ok(documents + [MapTextHit(hits[i]).value])
    ensures Accepts(hits[i], threshold) && MapTextHit(hits[i]).Err? ==>
              MapAll(Kept(hits, threshold), MapTextHit) == Err(MapTextHit(hits[i]).message)
  {
    var hit := hits[i];
    var kept := Kept(hits[..i], threshold);
    KeptStep(hits, i, threshold);
    if Accepts(hit, threshold) {
      MapAllSnoc(kept, hit, MapTextHit);
      if MapTextHit(hit).Err? {
        KeptSplit(hits, i + 1, threshold);
        MapAllStopsAtError(Kept(hits[..i + 1], threshold), Kept(hits[i + 1..], threshold), MapTextHit);
      }
    } else {
      assert kept + [] == kept;
    }
  }

  lemma KeptStep(hits: seq<Hit>, i: int, threshold: real)
    requires 0 <= i < |hits|
    ensures Kept(hits[..i + 1], threshold)
            == Kept(hits[..i], threshold) + (if Accepts(hits[i], threshold) then [hits[i]] else [])
  {
    assert hits[..i + 1][..i] == hits[..i];
  }

  lemma {:induction false} KeptAppend(a: seq<Hit>, b: seq<Hit>, threshold: real)
    ensures Kept(a + b, threshold) == Kept(a, threshold) + Kept(b, threshold)
    decreases |b|
  {
    if b == [] {
      assert a + b == a;
    } else {
      var init, last := b[..|b| - 1], b[|b| - 1];
      KeptAppend(a, init, threshold);
      assert (a + b)[..|a + b| - 1] == a + init;
      assert (a + b)[|a + b| - 1] == last;
    }
  }

  lemma KeptSplit(hits: seq<Hit>, i: int, threshold: real)
    requires 0 <= i <= |hits|
    ensures Kept(hits, threshold) == Kept(hits[..i], threshold) + Kept(hits[i..], threshold)
  {
    assert hits == hits[..i] + hits[i..];
    KeptAppend(hits[..i], hits[i..], threshold);
  }

  /** `x` occurs in `ys` in the same relative order: an order-preserving
      subsequence. */
  predicate IsSubsequence<T(==)>(xs: seq<T>, ys: seq<T>)
    decreases |ys|
  {
    if xs == [] then true
    else if ys == [] then false
    else if xs[|xs| - 1] == ys[|ys| - 1] then IsSubsequence(xs[..|xs| - 1], ys[..|ys| - 1])
    else IsSubsequence(xs, ys[..|ys| - 1])
  }

  lemma {:induction false} EmptyIsSubsequence<T>(ys: seq<T>)
    ensures IsSubsequence([], ys)
  {
  }

  lemma {:induction false} SubsequenceExtend<T>(xs: seq<T>, ys: seq<T>, y: T)
    requires IsSubsequence(xs, ys)
    ensures IsSubsequence(xs, ys + [y])
    decreases |ys|, 1
  {
    var ys' := ys + [y];
    assert ys'[..|ys'| - 1] == ys;
    if xs != [] && xs[|xs| - 1] == y {
      // matching y against the last element keeps xs's prefix a subsequence of ys
      SubsequencePrefix(xs, ys);
    }
  }

  lemma {:induction false} SubsequencePrefix<T>(xs: seq<T>, ys: seq<T>)
    requires xs != [] && IsSubsequence(xs, ys)
    ensures IsSubsequence(xs[..|xs| - 1], ys)
    decreases |ys|, 0
  {
    if xs[|xs| - 1] == ys[|ys| - 1] {
      SubsequenceExtend(xs[..|xs| - 1], ys[..|ys| - 1], ys[|ys| - 1]);
      assert ys[..|ys| - 1] + [ys[|ys| - 1]] == ys;
    } else {
      SubsequencePrefix(xs, ys[..|ys| - 1]);
      SubsequenceExtend(xs[..|xs| - 1], ys[..|ys| - 1], ys[|ys| - 1]);
      assert ys[..|ys| - 1] + [ys[|ys| - 1]] == ys;
    }
  }

  /** The kept hits are an order-preserving subsequence of the engine's hits,
      and contain every hit that reaches the threshold. */
  lemma {:induction false} KeptIsFilter(hits: seq<Hit>, threshold: real)
    ensures IsSubsequence(Kept(hits, threshold), hits)
    ensures forall i :: 0 <= i < |hits| && Accepts(hits[i], threshold) ==> hits[i] in Kept(hits, threshold)
    decreases |hits|
  {
    if hits != [] {
      var init := hits[..|hits| - 1];
      var last := hits[|hits| - 1];
      KeptIsFilter(init, threshold);
      assert init + [last] == hits;
      var kept := Kept(hits, threshold);
      assert hits[..|hits| - 1] == init && hits[|hits| - 1] == last;
      if Accepts(last, threshold) {
        assert kept == Kept(init, threshold) + [last];
        assert kept[..|kept| - 1] == Kept(init, threshold) && kept[|kept| - 1] == last;
        assert IsSubsequence(kept, hits);
      } else {
        assert kept == Kept(init, threshold);
        SubsequenceExtend(Kept(init, threshold), init, last);
      }
      forall i | 0 <= i < |hits| && Accepts(hits[i], threshold)
        ensures hits[i] in kept
      {
        if i < |hits| - 1 {
          assert hits[i] == init[i];
        }
      }
    }
  }

  /** Each accepted hit is kept as often as it occurs among the engine's
      hits, and no other hit is kept: one record per accepted hit. */
  lemma {:induction false} KeptCounts(hits: seq<Hit>, threshold: real)
    ensures forall h :: multiset(Kept(hits, threshold))[h] == if Accepts(h, threshold) then multiset(hits)[h] else 0
    decreases |hits|
  {
    if hits != [] {
      var init, last := hits[..|hits| - 1], hits[|hits| - 1];
      KeptCounts(init, threshold);
      assert hits == init + [last];
    }
  }

  /** A hit with no score at all is always dropped; with a reranker score
      that score alone decides; otherwise the base score decides. */
  lemma AcceptanceRule(h: Hit, threshold: real)
    ensures h.rerankerScore.Some? ==> (Accepts(h, threshold) <==> h.rerankerScore.value >= threshold)
    ensures h.rerankerScore.None? ==> (Accepts(h, threshold) <==> h.score.Some? && h.score.value >= threshold)
  {
  }

  /** The same 0.05 score passes a text-only search but not a vector or
      semantic search at the callers' default threshold. */
  lemma ThresholdAsymmetry(d: Option<Document>)
    ensures Accepts(Hit(Some(0.05), None, d), Threshold(true, DefaultMinRerankerScore))
    ensures !Accepts(Hit(Some(0.05), None, d), Threshold(false, DefaultMinRerankerScore))
  {
  }

  // --- SearchImageOnly -----------------------------------------------------------

  /** The record `SearchImageOnly` builds from a hit: the twelve scalar
      fields, read without `?.`, so a null document throws too. */
  function MapImageHit(h: Hit): (r: Result<GolfBallV2>)
    ensures h.document.None? ==> r == Err(NullReferenceMessage)
    ensures h.document.Some? ==>
      var doc := h.document.value;
      (r.Ok? <==> && Readable(doc, "id") && Readable(doc, "manufacturer") && Readable(doc, "usga_lot_num")
                  && Readable(doc, "pole_marking") && Readable(doc, "colour") && Readable(doc, "constCode")
                  && Readable(doc, "ballSpecs") && FieldInt32(doc, "dimples").Ok? && Readable(doc, "spin")
                  && Readable(doc, "pole_2") && Readable(doc, "seam_marking") && Readable(doc, "imageUrl"))
    ensures r.Ok? ==> r.value.textVector == [] && r.value.imageVector == [] && InInt32Range(r.value.dimples)
    ensures r.Ok? ==>
      var doc := h.document.value;
      && Ok(r.value.id) == FieldString(doc, "id")
      && Ok(r.value.manufacturer) == FieldString(doc, "manufacturer")
      && Ok(r.value.usgaLotNum) == FieldString(doc, "usga_lot_num")
      && Ok(r.value.poleMarking) == FieldString(doc, "pole_marking")
      && Ok(r.value.colour) == FieldString(doc, "colour")
      && Ok(r.value.constCode) == FieldString(doc, "constCode")
      && Ok(r.value.ballSpecs) == FieldString(doc, "ballSpecs")
      && Ok(r.value.dimples) == FieldInt32(doc, "dimples")
      && Ok(r.value.spin) == FieldString(doc, "spin")
      && Ok(r.value.pole2) == FieldString(doc, "pole_2")
      && Ok(r.value.seamMarking) == FieldString(doc, "seam_marking")
      && Ok(r.value.imageUrl) == FieldString(doc, "imageUrl")
  {
    match h.document
    case None => Err(NullReferenceMessage)
    case Some(doc) =>
      var id :- FieldString(doc, "id");
      var manufacturer :- FieldString(doc, "manufacturer");
      var usgaLotNum :- FieldString(doc, "usga_lot_num");
      var poleMarking :- FieldString(doc, "pole_marking");
      var colour :- FieldString(doc, "colour");
      var constCode :- FieldString(doc, "constCode");
      var ballSpecs :- FieldString(doc, "ballSpecs");
      var dimples :- FieldInt32(doc, "dimples");
      var spin :- FieldString(doc, "spin");
      var pole2 :- FieldString(doc, "pole_2");
      var seamMarking :- FieldString(doc, "seam_marking");
      var imageUrl :- FieldString(doc, "imageUrl");
      Ok(GolfBallV2(id, manufacturer, usgaLotNum, poleMarking, colour, constCode, ballSpecs,
                    dimples, spin, pole2, seamMarking, imageUrl, [], []))
  }

  /** `SearchImageOnly`: a pure vector query on `imageVector` with no search
      text; every hit becomes one record, in engine order, with no threshold.
      The first hit that cannot be read makes the whole search throw. */
  method SearchImageOnly(
    engine: SearchRequest -> Result<seq<Hit>>,
    imageEmbedding: seq<real>, k: int, top: int, filter: Option<string>, enableSemanticRanking: bool)
    returns (sent: SearchRequest, result: Result<seq<GolfBallV2>>)
    ensures sent.searchText == None
    ensures sent.options.filter == filter && sent.options.size == Some(top)
    ensures sent.options.select == ImageSelect && sent.options.includeTotalCount
    ensures sent.options.vectorQueries == [VectorizedQuery(imageEmbedding, k, ["imageVector"])]
    ensures sent.options.queryType == Semantic <==> enableSemanticRanking
    ensures sent.options.semanticSearch == (if enableSemanticRanking then Some(GolfSemanticOptions) else None)
    ensures engine(sent).Err? ==> result == Err(engine(sent).message)
    ensures engine(sent).Ok? ==>
      var hits := engine(sent).value;
      && (result.Ok? <==> forall i :: 0 <= i < |hits| ==> MapImageHit(hits[i]).Ok?)
      && (result.Ok? ==> |result.value| == |hits|
                         && forall i :: 0 <= i < |hits| ==> MapImageHit(hits[i]) == Ok(result.value[i]))
      && (result.Err? ==> exists i :: 0 <= i < |hits| && MapImageHit(hits[i]) == Err(result.message)
                                      && forall j :: 0 <= j < i ==> MapImageHit(hits[j]).Ok?)
  {
    var options := SearchOptions(filter, Some(top), ImageSelect, true,
                                 [VectorizedQuery(imageEmbedding, k, ["imageVector"])], Unset, None);
    if enableSemanticRanking {
      options := options.(queryType := Semantic, semanticSearch := Some(GolfSemanticOptions));
    }
    sent := SearchRequest(None, options);

    var response := engine(sent);
    if response.Err? {
      result := Err(response.message);
      return;
    }
    result := MapImageHits(response.value);
    MapAllMeaning(response.value, MapImageHit);
  }

  /** The `await foreach` of `SearchImageOnly`: every hit mapped, in engine
      order, until the first one that cannot be read. */
  method MapImageHits(hits: seq<Hit>) returns (result: Result<seq<GolfBallV2>>)
    ensures result == MapAll(hits, MapImageHit)
  {
    var results: seq<GolfBallV2> := [];
    var i := 0;
    while i < |hits|
      invariant 0 <= i <= |hits|
      invariant MapAll(hits[..i], MapImageHit) == Ok(results)
    {
      MapAllStep(hits, i, MapImageHit);
      var mapped := MapImageHit(hits[i]);
      if mapped.Err? {
        result := Err(mapped.message);
        return;
      }
      results := results + [mapped.value];
      i := i + 1;
    }
    assert hits[..|hits|] == hits;
    result := Ok(results);
  }

  // --- ListDocumentsAsync ----------------------------------------------------------

  /** The `Select` list `ListDocumentsAsync` builds when vector fields are
      suppressed: each non-vector field of the index, in schema order. */
  method SelectNonVectorFields(fields: seq<Field>) returns (select: seq<string>)
    ensures select == NonVectorFieldNames(fields)
  {
    select := [];
    var i := 0;
    while i < |fields|
      invariant 0 <= i <= |fields|
      invariant select == NonVectorFieldNames(fields[..i])
    {
      assert fields[..i + 1][..i] == fields[..i];
      if fields[i].dataType != SingleCollection {
        select := select + [fields[i].name];
      }
      i := i + 1;
    }
    assert fields[..|fields|] == fields;
  }

  /** `ListDocumentsAsync`: a `"*"` search capped at `maxResults`; with
      `suppressVectorFields` the index definition is fetched first and only
      its non-vector fields are selected. Returns every hit's document, in
      engine order. */
  method ListDocuments(
    indexName: string, suppressVectorFields: bool, maxResults: int,
    getIndex: string -> Result<Schema>, engine: SearchRequest -> Result<seq<Hit>>)
    returns (sent: Option<SearchRequest>, result: Result<seq<Option<Document>>>)
    ensures suppressVectorFields && getIndex(indexName).Err? ==>
              sent == None && result == Err(getIndex(indexName).message)
    ensures sent.Some? <==> !(suppressVectorFields && getIndex(indexName).Err?)
    ensures sent.Some? ==>
      && sent.value.searchText == Some("*")
      && sent.value.options.filter == None
      && sent.value.options.size == Some(maxResults)
      && sent.value.options.includeTotalCount
      && sent.value.options.vectorQueries == []
      && sent.value.options.queryType == Unset
      && sent.value.options.semanticSearch == None
      && sent.value.options.select ==
           (if suppressVectorFields then NonVectorFieldNames(getIndex(indexName).value.fields) else [])
      && (engine(sent.value).Err? ==> result == Err(engine(sent.value).message))
      && (engine(sent.value).Ok? ==>
            && result.Ok?
            && |result.value| == |engine(sent.value).value|
            && forall i :: 0 <= i < |result.value| ==> result.value[i] == engine(sent.value).value[i].document)
    ensures sent.None? ==> result.Err?
  {
    var select: seq<string> := [];
    if suppressVectorFields {
      var index := getIndex(indexName);
      if index.Err? {
        sent, result := None, Err(index.message);
        return;
      }
      select := SelectNonVectorFields(index.value.fields);
    }
    var request := SearchRequest(Some("*"), SearchOptions(None, Some(maxResults), select, true, [], Unset, None));
    sent := Some(request);
    var response := engine(request);
    if response.Err? {
      result := Err(response.message);
      return;
    }
    var documents: seq<Option<Document>> := [];
    var i := 0;
    while i < |response.value|
      invariant 0 <= i <= |response.value|
      invariant |documents| == i
      invariant forall j :: 0 <= j < i ==> documents[j] == response.value[j].document
    {
      documents := documents + [response.value[i].document];
      i := i + 1;
    }
    result := Ok(documents);
  }
}
