# Golf-ball Azure AI Search helpers in Dafny

This project models the core of two small ASP.NET services that index and
search a catalogue of golf balls with Azure AI Search. It covers three parts.

**Index definitions.** `SetupIndexTextAsync` and `SetupIndexTextImageAsync`
each build a search index and submit it:

- The text-only index has twelve scalar fields and one OpenAI-vectorised
  `vectorContent` field. Its dimension comes from configuration.
- The multi-modal index has the same twelve scalar fields, a 1536-dimension
  `textVector` and a 1024-dimension `imageVector`.
- Both share one HNSW algorithm and one semantic configuration.

**Ingestion.** The two loaders read the golf-ball CSV file. Each data line is
split on commas and its columns 1 to 11 are taken by position.

- The text-only job embeds every row's text. The first failure ends the job;
  otherwise it uploads all rows in one batch.
- The multi-modal job embeds each row's text and, when the row has an image
  URL, its image, through the vision service's `vectorizeImage` operation.
  Each row runs in its own `try`. The job uploads the rows that succeeded in
  one batch, then writes the rows that failed to a `failed_rows.log` file.

**Queries.**

- `SearchTextOnly` composes a text, vector, hybrid or semantic query. It keeps
  the hits whose reranker score, or failing that whose base score, reaches a
  threshold.
- `SearchImageOnly` composes a pure image-vector query and keeps every hit.
- `ListDocumentsAsync` selects the non-vector fields of an index.

Every external service is a function parameter that returns a reply or an
error:

- the OpenAI embedding deployment;
- the vision service's POST and the image GET;
- the search engine's create, upload and search calls;
- the log-file write;
- the clock and the GUID generator.

The jobs return the list of calls they made, in order, so that what is and is
not sent can be stated. The parts of the .NET runtime these paths depend on are
modelled explicitly, with their own properties:

- `String.Split`, `Int32.Parse` and `Int32.ToString`;
- `String.TrimEnd`;
- `Path.GetDirectoryName` and `Path.Combine` on Unix.

Files, with one module each:

- `wrappers.dfy` (`Wrappers`): Option, Result and Outcome, plus `MapAll`, which maps until the first error.
- `dotnet_text.dfy` (`DotNetText`): the runtime string functions.
- `golf_ball_data.dfy` (`GolfBallData`): the V1 and V2 records and the returned search document.
- `index_schema.dfy` (`IndexSchema`): the two index definitions and the field selection of `ListDocumentsAsync`.
- `csv_loader.dfy` (`GolfBallCsv`): the two CSV loaders.
- `image_vectorizer.dfy` (`ImageVectorizer`): the image download and vectorisation.
- `failure_log.dfy` (`FailureLog`): the log entry text and the log path.
- `ingestion.dfy` (`GolfBallIngestion`): the two upload jobs.
- `search_queries.dfy` (`SearchQueries`): query composition and result filtering.

## Model

| member | source | states |
|---|---|---|
| Wrappers.MapAllMeaning | api-azure-ai-search/Helper/GolfBallHelper.cs:118-136 | a loop that maps each element in order and throws at the first failure succeeds if and only if every element succeeds, then yields one result per element in order; otherwise it yields the first element's exception |
| DotNetText.ParseInt32 | api-azure-ai-search/Helper/GolfBallHelper.cs:252 | `int.Parse` gives only 32-bit values, and every failure is the format exception quoting the input or the overflow exception; which inputs succeed is stated by `ParseIntegerText` and `ParseNonIntegerText` |
| DotNetText.ParseIntegerText | api-azure-ai-search/Helper/GolfBallHelper.cs:252 | every integer text (white space, an optional `+` or `-`, one or more digits with leading zeros allowed, white space) parses to its value when that fits in 32 bits and throws the overflow exception otherwise |
| DotNetText.ParseNonIntegerText | api-azure-ai-search/Helper/GolfBallHelper.cs:252 | every input that is not an integer text throws the format exception; together with `ParseIntegerText` this fixes `int.Parse` on every input |
| DotNetText.IntegerTextChars | api-azure-ai-search/Helper/GolfBallHelper.cs:252 | an integer text holds only white space, digits and signs |
| DotNetText.ParseRejectsForeignChar | api-azure-ai-search/Helper/GolfBallHelper.cs:252 | one character that is not white space, a digit or a sign anywhere in the input (a letter, a decimal point, an exponent) makes it throw the format exception |
| DotNetText.ParseRejectsNonIntegers | Azure-AI-Search-API/Helper/AISearchHelper.cs:318 | "15a6", "1.5" and "1e3" do not parse |
| DotNetText.ParseIntToString | api-azure-ai-search/Helper/GolfBallHelper.cs:252 | parsing the decimal text of any 32-bit integer gives that integer back |
| DotNetText.ParseRejectsDigitFree | Azure-AI-Search-API/Helper/AISearchHelper.cs:318 | a setting with no digit in it throws the format exception |
| DotNetText.JoinSplit | api-azure-ai-search/Helper/GolfBallHelper.cs:243 | rejoining the comma-split pieces of a line gives the line back |
| DotNetText.SplitJoin | api-azure-ai-search/Helper/GolfBallHelper.cs:243 | splitting joined comma-free pieces gives exactly those pieces |
| DotNetText.SplitConcat | api-azure-ai-search/Helper/GolfBallHelper.cs:243 | splitting at one separator yields the pieces of each side, side by side |
| DotNetText.TrimEnd | api-azure-ai-search/Helper/GolfBallHelper.cs:62 | `TrimEnd('/')` returns a prefix that does not end in '/', and everything it removed was '/' |
| ImageVectorizer.VisionEndpoint | api-azure-ai-search/Helper/GolfBallHelper.cs:62 | the stored vision endpoint is the configured one without its trailing slashes |
| ImageVectorizer.VectorizeUriSingleSlash | api-azure-ai-search/Helper/GolfBallHelper.cs:273-275 | however many slashes the configured endpoint ends with, exactly one separates it from the `vectorizeImage` route |
| ImageVectorizer.DownloadImage | api-azure-ai-search/Helper/GolfBallHelper.cs:384-428 | the bytes are returned exactly when the GET gives a 2xx status; a transport failure or a non-success status becomes one exception with the fixed "Failed to download image using both methods" prefix |
| ImageVectorizer.VectorizeImageBytes | api-azure-ai-search/Helper/GolfBallHelper.cs:330-382 | a vector is returned if and only if the key has at least four characters, the POST to the vectorize URI succeeds with 2xx and the body holds a non-empty vector; a non-success status gives "API call failed (status: …): body", a missing or empty vector gives "No vector embedding generated." |
| ImageVectorizer.VectorizeImageUrl | api-azure-ai-search/Helper/GolfBallHelper.cs:265-328 | a failed download is the result; otherwise it is what vectorising the downloaded bytes gives; any vector returned is non-empty |
| GolfBallCsv.ParseRow | api-azure-ai-search/Helper/GolfBallHelper.cs:243-256 | a data line fewer than 8 columns long, or 8–11 columns long with a valid column 7, throws index-out-of-range; a bad column 7 throws the parse error; otherwise the row holds columns 1 to 11, with dimples parsed |
| GolfBallCsv.ParseRowLine | api-azure-ai-search/Helper/GolfBallHelper.cs:243-256 | a row written as a CSV line (any comma-free lead column, comma-free text) reads back as the same row |
| GolfBallCsv.ParseRowIgnoresFirstColumn | api-azure-ai-search/Helper/GolfBallHelper.cs:243-256 | column 0 never affects the record |
| GolfBallCsv.ParseRowIgnoresExtraColumns | api-azure-ai-search/Helper/GolfBallHelper.cs:243-256 | columns after the twelfth are never read |
| GolfBallCsv.LoadV1Meaning | api-azure-ai-search/Helper/GolfBallHelper.cs:112-139 | an unreadable file gives its error and an empty file index-out-of-range; otherwise loading succeeds if and only if every line after the header parses, giving one record per such line, in order, with a fresh id; on failure the error is that of the first bad line |
| GolfBallCsv.LoadV2Meaning | api-azure-ai-search/Helper/GolfBallHelper.cs:235-262 | the same for the V2 loader and V2 records |
| GolfBallCsv.HeaderOnlyLoadsEmpty | api-azure-ai-search/Helper/GolfBallHelper.cs:115-118 | a file holding only its header loads as an empty list |
| GolfBallCsv.LoadGolfBallsV1 | api-azure-ai-search/Helper/GolfBallHelper.cs:112-139 | the line loop computes exactly `LoadV1` |
| GolfBallCsv.LoadGolfBallsV2 | api-azure-ai-search/Helper/GolfBallHelper.cs:235-262 | the line loop computes exactly `LoadV2` |
| FailureLog.LogEntryLines | api-azure-ai-search/Helper/GolfBallHelper.cs:217-225 | read back line by line, an entry gives the timestamp, the heading, manufacturer, pole marking, colour (captioned "Color"), seam marking, error and a 40-dash rule, provided no value spans lines |
| FailureLog.LogEntries | api-azure-ai-search/Helper/GolfBallHelper.cs:217-225 | one entry per failed row, in order |
| FailureLog.DirectoryName | api-azure-ai-search/Helper/GolfBallHelper.cs:203 | `Path.GetDirectoryName` is null exactly for an empty path or a bare root, and is otherwise shorter than the path |
| FailureLog.Combine | api-azure-ai-search/Helper/GolfBallHelper.cs:203 | `Path.Combine` throws `ArgumentNullException` for `path1` exactly when its first argument is null |
| FailureLog.FailureLogPath | api-azure-ai-search/Helper/GolfBallHelper.cs:203 | deriving the log path fails exactly when the source path has no directory |
| FailureLog.LogPathFromFileNameFieldThrows | api-azure-ai-search/Helper/GolfBallHelper.cs:203 | derived from `_csvFileName`, which is never assigned, the log path is always the `ArgumentNullException` |
| FailureLog.LogPathBesideCsvFile | api-azure-ai-search/Helper/GolfBallHelper.cs:203 | derived from the CSV file's path `dir/name`, the log path is `dir/failed_rows.log` |
| FailureLog.LogPathForBareFileName | api-azure-ai-search/Helper/GolfBallHelper.cs:203 | derived from a bare file name, the log path is `failed_rows.log` in the working directory |
| GolfBallIngestion.EmbeddingTextV1Fields | api-azure-ai-search/Helper/GolfBallHelper.cs:94-97 | the text-only embedding text names manufacturer, pole marking, colour (captioned "Color") and seam marking, in that order, and for comma-free values each labelled piece can be split back out |
| GolfBallIngestion.EmbeddingTextV2Fields | api-azure-ai-search/Helper/GolfBallHelper.cs:166-169 | the multi-modal text has the same four labelled pieces, with the caption "Colour" |
| GolfBallIngestion.ImageEmbedding | api-azure-ai-search/Helper/GolfBallHelper.cs:178 | an image embedding that is returned is non-empty |
| GolfBallIngestion.ProcessRowMeaning | api-azure-ai-search/Helper/GolfBallHelper.cs:163-191 | a row is processed if and only if its text embedding succeeds and, when it has a URL, its image embedding succeeds; a processed row carries both vectors (an empty image vector without a URL); a failed row carries the first exception and keeps the text vector set before an image failure; no other field changes |
| GolfBallIngestion.RowCalls | api-azure-ai-search/Helper/GolfBallHelper.cs:163-184 | a row always calls the text embedding first, and calls the image embedding only after a successful text embedding of a row with a URL |
| GolfBallIngestion.ProcessOne | api-azure-ai-search/Helper/GolfBallHelper.cs:163-191 | the per-row `try` body yields `ProcessRow`'s outcome and `RowCalls`'s calls |
| GolfBallIngestion.ProcessAll | api-azure-ai-search/Helper/GolfBallHelper.cs:161-192 | the row loop yields exactly the specified processed rows, failed rows and calls |
| GolfBallIngestion.PartitionCount | api-azure-ai-search/Helper/GolfBallHelper.cs:161-192 | every row lands in exactly one of the two lists |
| GolfBallIngestion.RowsAppend | api-azure-ai-search/Helper/GolfBallHelper.cs:161-192 | the loop is row by row: the lists and calls for `a + b` are those for `a` followed by those for `b` |
| GolfBallIngestion.BadRowIsolated | api-azure-ai-search/Helper/GolfBallHelper.cs:187-191 | a failing row does not abort the batch: the rows around it are processed exactly as without it, and it alone is added to the failed list |
| GolfBallIngestion.BadRowNotProcessed | api-azure-ai-search/Helper/GolfBallHelper.cs:187-191 | a failing row contributes nothing to the processed list |
| GolfBallIngestion.BadRowLogged | api-azure-ai-search/Helper/GolfBallHelper.cs:187-191 | a failing row contributes exactly its (record, message) pair to the failed list |
| GolfBallIngestion.EveryRowAccountedFor | api-azure-ai-search/Helper/GolfBallHelper.cs:185-189 | each row's outcome is in the list it belongs to |
| GolfBallIngestion.ListsHoldOnlyOutcomes | api-azure-ai-search/Helper/GolfBallHelper.cs:185-189 | the two lists hold nothing but the outcomes of input rows |
| GolfBallIngestion.ImageVectorRule | api-azure-ai-search/Helper/GolfBallHelper.cs:176-184 | a processed row has an empty image vector exactly when it has no image URL, and a non-empty one otherwise |
| GolfBallIngestion.DeclaredDimensions | api-azure-ai-search/Helper/GolfBallHelper.cs:172-180 | processed rows have the declared vector sizes only if the services return them; the job itself checks no size |
| GolfBallIngestion.ImageCallsHaveUrls | api-azure-ai-search/Helper/GolfBallHelper.cs:176-180 | the vision service is never called for a row without an image URL |
| GolfBallIngestion.LoopCallsOnlyEmbed | api-azure-ai-search/Helper/GolfBallHelper.cs:161-192 | the row loop calls only the two embedding services |
| GolfBallIngestion.ProcessUploadAndLog | api-azure-ai-search/Helper/GolfBallHelper.cs:161-206 | after loading, the job processes every row, uploads the processed ones in one batch if there are any, then logs the failed ones beside the CSV file if there are any; a failed upload ends the job unlogged, and a failed log write is the job's failure |
| GolfBallIngestion.UploadTextImage | api-azure-ai-search/Helper/GolfBallHelper.cs:143-213 | a load that throws, or that loads nothing, ends the job with that error before any call; otherwise the job runs as `MultiModalRun` describes |
| GolfBallIngestion.RunTraceShape | api-azure-ai-search/Helper/GolfBallHelper.cs:194-206 | a run's calls are the row calls, then the upload if any row was processed, then at most one log write |
| GolfBallIngestion.SingleUpload | api-azure-ai-search/Helper/GolfBallHelper.cs:194-199 | at most one upload, placed right after the row calls and carrying exactly the processed rows; it is present if and only if some row was processed |
| GolfBallIngestion.NothingProcessedNothingUploaded | api-azure-ai-search/Helper/GolfBallHelper.cs:194-199 | when every row fails, nothing is processed and every row is logged |
| GolfBallIngestion.AsWrittenFailedRowsThrow | api-azure-ai-search/Helper/GolfBallHelper.cs:201-211 | with the path taken from `_csvFileName`, a job with a failed row and no failed upload ends in `ArgumentNullException` and writes no log |
| GolfBallIngestion.EmbedAll | api-azure-ai-search/Helper/GolfBallHelper.cs:92-101 | the text-only loop embeds the rows in order; it succeeds if and only if every embedding succeeds, setting each row's vector; otherwise it stops at the first failing row with that row's exception |
| GolfBallIngestion.EmbedAndUpload | api-azure-ai-search/Helper/GolfBallHelper.cs:92-106 | after loading, the text-only job embeds each row in order and uploads all rows with their vectors in one batch only if every embedding succeeded; otherwise it fails with the first embedding's exception and uploads nothing |
| GolfBallIngestion.UploadTextOnly | api-azure-ai-search/Helper/GolfBallHelper.cs:77-107 | a load error, or an empty file, ends the job before any call; otherwise the job runs as `TextOnlyRun` describes (in-order embedding, one upload of all rows only if every embedding succeeded, otherwise the first embedding's exception with no upload) |
| IndexSchema.TextSchema | Azure-AI-Search-API/Helper/AISearchHelper.cs:241-322 | the text-only definition is built exactly when the endpoint is a valid URI and the dimension setting parses; when built it is well-formed (one key, every vector field on an existing profile, every profile on an existing algorithm and vectorizer, semantic fields searchable) and uses the parsed dimension |
| IndexSchema.TextSchemaWellFormed | Azure-AI-Search-API/Helper/AISearchHelper.cs:241-322 | the text-only definition is well-formed for every dimension |
| IndexSchema.MultiModalSchema | Azure-AI-Search-API/Helper/AISearchHelper.cs:347-446 | the multi-modal definition is built exactly when the endpoint is a valid URI, and is then well-formed |
| IndexSchema.MultiModalSchemaWellFormed | Azure-AI-Search-API/Helper/AISearchHelper.cs:347-446 | the multi-modal definition is well-formed |
| IndexSchema.ScalarFieldsNamed | Azure-AI-Search-API/Helper/AISearchHelper.cs:303-314 | the twelve scalar fields are, in order, id … imageUrl; `id` is the only key, and none of them is a vector |
| IndexSchema.ScalarFieldsKey | Azure-AI-Search-API/Helper/AISearchHelper.cs:303-314 | the key fields of the scalar list are exactly `["id"]` |
| IndexSchema.TextSchemaShape | Azure-AI-Search-API/Helper/AISearchHelper.cs:241-322 | 13 fields; `id` is the only key; `vectorContent` has the parsed dimension and the golf profile; the HNSW parameters are 4/400/500/cosine; the semantic title is manufacturer and the content is pole and seam marking |
| IndexSchema.MultiModalSchemaShape | Azure-AI-Search-API/Helper/AISearchHelper.cs:347-446 | 14 fields; `id` is the only key; `textVector` 1536 on the text profile; `imageVector` 1024 on a profile with no vectorizer; one vectorizer; four semantic content fields |
| IndexSchema.SetupIndexText | Azure-AI-Search-API/Helper/AISearchHelper.cs:241-325 | the definition submitted is exactly the text-only `TextSchema` (13 fields, `vectorContent` at the parsed dimension), well-formed, and the engine's outcome is returned; nothing is submitted exactly when the URI or the dimension is bad |
| IndexSchema.SetupIndexTextImage | Azure-AI-Search-API/Helper/AISearchHelper.cs:347-449 | the definition submitted is exactly the multi-modal `MultiModalSchema`, well-formed, and the engine's outcome is returned; nothing is submitted exactly when the URI is bad |
| IndexSchema.NonNumericDimensionNeverSubmitted | Azure-AI-Search-API/Helper/AISearchHelper.cs:318 | a dimension setting that is not an integer text fails before the engine is called, with the format exception when the endpoint is valid |
| IndexSchema.DecimalDimensionIsUsed | Azure-AI-Search-API/Helper/AISearchHelper.cs:318 | with a valid endpoint, an integer dimension setting (white space, sign and leading zeros allowed) becomes `vectorContent`'s dimension in the definition sent to the engine when it fits in 32 bits; otherwise the overflow exception stops the submission |
| IndexSchema.NonVectorFieldNames | Azure-AI-Search-API/Helper/AISearchHelper.cs:210-212 | every selected name belongs to a non-vector field of the index |
| IndexSchema.NonVectorFieldNamesComplete | Azure-AI-Search-API/Helper/AISearchHelper.cs:210-212 | every non-vector field is selected |
| IndexSchema.NonVectorFieldsOfBuiltSchemas | Azure-AI-Search-API/Helper/AISearchHelper.cs:207-219 | with vectors suppressed, listing either index selects exactly its twelve scalar fields |
| SearchQueries.FieldString | Azure-AI-Search-API/Helper/AISearchHelper.cs:538-542 | `doc[key].ToString()` succeeds if and only if the key is present with a non-null value, and gives a text value unchanged |
| SearchQueries.NumberFieldRoundTrip | Azure-AI-Search-API/Helper/AISearchHelper.cs:620 | a 32-bit number read as text parses back to itself |
| SearchQueries.FieldInt32 | Azure-AI-Search-API/Helper/AISearchHelper.cs:620 | `Convert.ToInt32` gives 0 for null; a number is returned unchanged exactly when it fits in 32 bits, else the overflow exception; text goes through `int.Parse`; a missing key throws the key-not-found exception |
| SearchQueries.Kept | Azure-AI-Search-API/Helper/AISearchHelper.cs:512-521 | every kept hit reaches the threshold |
| SearchQueries.KeptIsFilter | Azure-AI-Search-API/Helper/AISearchHelper.cs:512-521 | the kept hits are an order-preserving subsequence of the engine's hits and include every hit that reaches the threshold |
| SearchQueries.KeptCounts | Azure-AI-Search-API/Helper/AISearchHelper.cs:512-543 | each accepted hit is kept exactly as many times as it occurs among the engine's hits, and no rejected hit is kept; with `KeptIsFilter` this fixes the kept list uniquely |
| SearchQueries.AcceptanceRule | Azure-AI-Search-API/Helper/AISearchHelper.cs:515-521 | with a reranker score, that score alone decides; without one, the base score decides; with neither, the hit is dropped |
| SearchQueries.ThresholdAsymmetry | Azure-AI-Search-API/Helper/AISearchHelper.cs:517 | a 0.05 score passes a text-only search but not a vector or semantic one at the default threshold of 2.0 |
| SearchQueries.MapTextHit | Azure-AI-Search-API/Helper/AISearchHelper.cs:536-543 | a null document gives a record with empty fields; otherwise the record holds the five selected fields and the rest keep their defaults; a missing or null field throws |
| SearchQueries.KeepAndMapTextHits | Azure-AI-Search-API/Helper/AISearchHelper.cs:511-550 | the result loop computes exactly `MapAll(Kept(hits), MapTextHit)` |
| SearchQueries.SearchTextOnly | Azure-AI-Search-API/Helper/AISearchHelper.cs:464-554 | the request carries filter, size and the five selected fields; a vector query only when not text-only; semantic options if and only if hybrid or semantic; search text if and only if text-only, hybrid or semantic; the result is the kept hits at 0.03 (text-only) or `minRerankerScore`, mapped, or the engine's error |
| SearchQueries.MapImageHit | Azure-AI-Search-API/Helper/AISearchHelper.cs:609-625 | a null document throws; otherwise a record is built exactly when the eleven text fields are present and non-null and dimples converts, and it holds the twelve selected fields with dimples converted to 32 bits, and no vectors |
| SearchQueries.MapImageHits | Azure-AI-Search-API/Helper/AISearchHelper.cs:607-631 | the result loop computes exactly `MapAll(hits, MapImageHit)`: one record per hit, in order, or the first unreadable hit's exception |
| SearchQueries.SearchImageOnly | Azure-AI-Search-API/Helper/AISearchHelper.cs:556-661 | a pure vector query on `imageVector` with no search text; semantic options if and only if requested; every hit becomes one record in order, with no threshold, and the first unreadable hit fails the whole search |
| SearchQueries.SelectNonVectorFields | Azure-AI-Search-API/Helper/AISearchHelper.cs:207-219 | the select loop computes exactly `NonVectorFieldNames` of the index's fields |
| SearchQueries.ListDocuments | Azure-AI-Search-API/Helper/AISearchHelper.cs:189-236 | the search is sent exactly when no index lookup was needed or the lookup succeeded; it is a `"*"` search with no filter, no vector or semantic query, the total count requested, capped at `maxResults`, selecting only non-vector fields when asked; a lookup error ends it first; returns every hit's document in order |

## Left out

- Network, SDK and file-system calls are function parameters returning replies or errors. This covers the OpenAI embedding, the vision POST, the image GET, `CreateOrUpdateIndexAsync`, `IndexDocumentsAsync`, `SearchAsync`, `GetIndexAsync` and `File.ReadAllLinesAsync`/`WriteAllLinesAsync`. Their own behaviour is not modelled.
- The clock (`DateTime.UtcNow`, already formatted) and `Guid.NewGuid()` are parameters (`clock`, `freshId`).
- Constructors and configuration lookups are not modelled. The missing-setting exceptions and the `AZURE_VISION_ENDPOINT` null case are out; only the `TrimEnd('/')` result is kept.
- `DeleteIndexAsync`, `GetIndexesAsync`, `GetIndexDetailsAsync`, `GetIndexStatisticsAsync`, `ProcessImagesAndSearch` and the controllers are outside the modelled core.
- Logging and console output are left out. So is `SearchImageOnly`'s `tempScores` dictionary, which is only printed.
- Each `async` method is modelled as a sequential computation. There is no concurrency.
- `float`/`double` vectors and scores are `real`. Floating-point rounding, and any comparison made in `float` precision, is not captured.
- Paths follow .NET on Unix: '/' is the only separator and there are no drive or UNC roots.
- `IndexSchema.TextSchema`: whether `new Uri(endpoint)` accepts the endpoint is taken as a given flag (`endpointIsAbsoluteUri`). URI parsing is not modelled. Every rejected endpoint carries the one message "Invalid URI: The format of the URI could not be determined." in `TextSchema`, `MultiModalSchema`, `SetupIndexText` and `SetupIndexTextImage`, although `new Uri` has other messages too, such as "Invalid URI: The URI is empty." for an empty endpoint.
- `DotNetText.ParseInt32`: `int.Parse` also tolerates trailing U+0000 characters after the number; the model treats them like any other non-white character and rejects the input.
- `ImageVectorizer.VectorizeImageBytes`: header validation of `Ocp-Apim-Subscription-Key` (the trimmed key) is left out. So is the JSON body's exact shape: the deserialiser's result is given as a parsed reply.
- The per-document result of `IndexDocumentsAsync` is not inspected by the source either. Uploads are modelled as one `Outcome`.
- Records are values, not references. The model captures the fields assigned before a failure but not aliasing between the loaded list and the processed list.
- `GolfBallIngestion.UploadTextImage`: the model derives the failure-log path from the CSV file's path, which is the corrected behaviour. The as-written path from `_csvFileName` is modelled by `AsWrittenFailedRowsThrow`.
- Where the behaviour differs from the service's design description, the model follows the code:
  - A field that fails to convert makes `SearchImageOnly` fail the whole search, not just that hit.
  - A failed log write fails the multi-modal job.
  - A malformed CSV line aborts the whole job, because the loaders run outside the per-row `try`.
  - Vector sizes are never checked against the declared index dimensions (see `DeclaredDimensions`).

## Findings

| source | as written | input that shows it | evidently intended | confidence | as-written member | corrected member |
|---|---|---|---|---|---|---|
| api-azure-ai-search/Helper/GolfBallHelper.cs:203 | the failure-log path is `Path.Combine(Path.GetDirectoryName(_csvFileName)!, "failed_rows.log")`, and `_csvFileName` is initialised to `String.Empty` and never assigned (line 28) | any multi-modal run in which one row's embedding throws and the upload succeeds: `GetDirectoryName("")` is null, so `Path.Combine` throws `ArgumentNullException`, the job rethrows and no log is written | the log is written beside the CSV file, derived from `_csvFilePath` (line 72) | not executed | FailureLog.LogPathFromFileNameFieldThrows, GolfBallIngestion.AsWrittenFailedRowsThrow | FailureLog.LogPathBesideCsvFile |
