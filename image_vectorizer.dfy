/** The image side of `GolfBallHelper`: downloading an image
    (`DownloadImageAsync`), posting its bytes to the vision service's
    `vectorizeImage` operation (`GenerateImageEmbeddingAsyncV3`) and the two
    together (`GenerateImageEmbeddingAsyncV2`). The HTTP calls are functions
    from what is sent to the reply received; only the checks this code makes
    on those replies are modelled. */
module ImageVectorizer {
  import opened Wrappers
  import opened DotNetText

  type Byte = bv8

  /** The reply to the image GET: a transport failure (DNS, timeout, TLS...)
      or a response with its status code, the status's enum name, and body. */
  datatype GetReply = GetFailed(message: string) | GetResponse(status: int, statusName: string, body: seq<Byte>)

  /** What `JsonSerializer.Deserialize<VectorizeImageResponse>` made of the
      body: it threw, or gave null / an object without `vector`, or a vector. */
  datatype ParsedVector = Unparsable(message: string) | NoVector | Vector(values: seq<real>)

  /** The reply to the vectorize POST. */
  datatype PostReply =
    | PostFailed(message: string)
    | PostResponse(status: int, statusName: string, content: string, parsed: ParsedVector)

  /** The vision settings: the endpoint as configured and the subscription key. */
  datatype VisionConfig = VisionConfig(configuredEndpoint: string, key: string)

  const ApiVersion: string := "2024-02-01"
  const ModelVersion: string := "2023-04-15"
  const NoVectorMessage: string := "No vector embedding generated."
  const SubstringMessage: string := "Index and length must refer to a location within the string. (Parameter 'length')"

  /** `HttpResponseMessage.IsSuccessStatusCode`. */
  predicate IsSuccessStatus(status: int) { 200 <= status <= 299 }

  /** `_azureVisionEndpoint`: the configured endpoint with `TrimEnd('/')`. */
  function VisionEndpoint(cfg: VisionConfig): (e: string)
    ensures e == [] || e[|e| - 1] != '/'
    ensures |e| <= |cfg.configuredEndpoint| && e == cfg.configuredEndpoint[..|e|]
    ensures forall i :: |e| <= i < |cfg.configuredEndpoint| ==> cfg.configuredEndpoint[i] == '/'
  {
    TrimEnd(cfg.configuredEndpoint, '/')
  }

  const VectorizeRoute: string := "/computervision/retrieval:vectorizeImage"
  const VectorizePath: string :=
    VectorizeRoute + "?api-version=" + ApiVersion + "&model-version=" + ModelVersion

  /** The request URI both vectorize variants post to. */
  function VectorizeUri(cfg: VisionConfig): (uri: string)
    ensures uri == VisionEndpoint(cfg) + VectorizePath
  {
    VisionEndpoint(cfg) + VectorizePath
  }

  /** However many slashes the configured endpoint ends with, exactly one
      separates it from the vectorize path. */
  lemma VectorizeUriSingleSlash(cfg: VisionConfig)
    requires VisionEndpoint(cfg) != []
    ensures var uri := VectorizeUri(cfg); var n := |VisionEndpoint(cfg)|;
      uri[n] == '/' && uri[n - 1] != '/'
  {
    var e := VisionEndpoint(cfg);
    assert VectorizeRoute[0] == '/';
    assert VectorizePath[0] == VectorizeRoute[0];
    assert VectorizeUri(cfg)[|e|] == VectorizePath[0];
    assert VectorizeUri(cfg)[|e| - 1] == e[|e| - 1];
  }

  function DownloadFailedMessage(original: string): string {
    "Failed to download image using both methods. Original error: " + original
  }

  /** `DownloadImageAsync`: any failure, including a non-success status, is
      rethrown wrapped in one fixed prefix. */
  function DownloadImage(url: string, get: string -> GetReply): (r: Result<seq<Byte>>)
    ensures r.Ok? <==> get(url).GetResponse? && IsSuccessStatus(get(url).status)
    ensures r.Ok? ==> r.value == get(url).body
    ensures get(url).GetFailed? ==> r == Err(DownloadFailedMessage(get(url).message))
    ensures get(url).GetResponse? && !IsSuccessStatus(get(url).status) ==>
              r == Err(DownloadFailedMessage("Failed to download image. Status code: " + get(url).statusName))
  {
    match get(url)
    case GetFailed(m) => Err(DownloadFailedMessage(m))
    case GetResponse(status, name, body) =>
      if IsSuccessStatus(status) then Ok(body)
      else Err(DownloadFailedMessage("Failed to download image. Status code: " + name))
  }

  /** `GenerateImageEmbeddingAsyncV3`: log the first four characters of the
      key (which throws for a shorter key), post the bytes, then insist on a
      success status and on a non-empty vector. */
  function VectorizeImageBytes(cfg: VisionConfig, bytes: seq<Byte>, post: (string, seq<Byte>) -> PostReply)
    : (r: Result<seq<real>>)
    ensures r.Ok? ==> |r.value| > 0
    ensures r.Ok? <==>
      && |cfg.key| >= 4
      && post(VectorizeUri(cfg), bytes).PostResponse?
      && IsSuccessStatus(post(VectorizeUri(cfg), bytes).status)
      && post(VectorizeUri(cfg), bytes).parsed.Vector?
      && |post(VectorizeUri(cfg), bytes).parsed.values| > 0
    ensures r.Ok? ==> r.value == post(VectorizeUri(cfg), bytes).parsed.values
    ensures |cfg.key| >= 4 && post(VectorizeUri(cfg), bytes).PostResponse?
            && !IsSuccessStatus(post(VectorizeUri(cfg), bytes).status) ==>
      var reply := post(VectorizeUri(cfg), bytes);
      r == Err("API call failed (status: " + reply.statusName + "): " + reply.content)
    ensures |cfg.key| >= 4 && post(VectorizeUri(cfg), bytes).PostResponse?
            && IsSuccessStatus(post(VectorizeUri(cfg), bytes).status)
            && (post(VectorizeUri(cfg), bytes).parsed == NoVector
                || post(VectorizeUri(cfg), bytes).parsed == Vector([])) ==>
      r == Err(NoVectorMessage)
  {
    if |cfg.key| < 4 then Err(SubstringMessage)
    else
      match post(VectorizeUri(cfg), bytes)
      case PostFailed(m) => Err(m)
      case PostResponse(status, name, content, parsed) =>
        if !IsSuccessStatus(status) then Err("API call failed (status: " + name + "): " + content)
        else match parsed
          case Unparsable(m) => Err(m)
          case NoVector => Err(NoVectorMessage)
          case Vector(v) => if |v| == 0 then Err(NoVectorMessage) else Ok(v)
  }

  /** `GenerateImageEmbeddingAsyncV2`: download the image, then vectorize its
      bytes exactly as the byte-based variant does. */
  function VectorizeImageUrl(cfg: VisionConfig, url: string, get: string -> GetReply,
                             post: (string, seq<Byte>) -> PostReply): (r: Result<seq<real>>)
    ensures r.Ok? ==> |r.value| > 0
    ensures DownloadImage(url, get).Err? ==> r == Err(DownloadImage(url, get).message)
    ensures DownloadImage(url, get).Ok? ==> r == VectorizeImageBytes(cfg, DownloadImage(url, get).value, post)
  {
    var bytes :- DownloadImage(url, get);
    VectorizeImageBytes(cfg, bytes, post)
  }
}
