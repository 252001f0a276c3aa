/** The two upload jobs of `GolfBallHelper`: the text-only job
    (`UploadGolfBallDataTextOnlyAsync`) and the multi-modal job
    (`UploadGolfBallDataTextImageAsyncV2`), with the embedding text they send.
    Every external effect is a parameter, and each job returns the calls it
    made, in order, so that what is (and is not) sent can be stated. */
module GolfBallIngestion {
  import opened Wrappers
  import opened DotNetText
  import opened GolfBallData
  import opened GolfBallCsv
  import opened ImageVectorizer
  import opened FailureLog

  const NoDataMessage: string := "No golf ball data found in CSV."

  // ---------------------------------------------------------------------------
  // Embedding text
  // ---------------------------------------------------------------------------

  /** One interpolated piece, "caption: value". */
  function Labelled(caption: string, value: string): string {
    caption + ": " + value
  }

  /** Four pieces separated by ", ". */
  function CommaList4(a: string, b: string, c: string, d: string): string {
    a + ", " + b + ", " + c + ", " + d
  }

  /** The text the text-only job embeds (note "Color"). */
  function EmbeddingTextV1(b: GolfBallV1): string {
    CommaList4(Labelled("Manufacturer", b.manufacturer), Labelled("Pole Marking", b.poleMarking),
               Labelled("Color", b.colour), Labelled("Seam Marking", b.seamMarking))
  }

  /** The text the multi-modal job embeds (note "Colour"). */
  function EmbeddingTextV2(b: GolfBallV2): string {
    CommaList4(Labelled("Manufacturer", b.manufacturer), Labelled("Pole Marking", b.poleMarking),
               Labelled("Colour", b.colour), Labelled("Seam Marking", b.seamMarking))
  }

  lemma CommaSpace(x: string, y: string)
    ensures x + ", " + y == x + [','] + (" " + y)
  {
    assert ", " == [','] + " ";
  }

  lemma LabelledCommaFree(caption: string, value: string)
    requires CommaFree(caption) && CommaFree(value)
    ensures CommaFree(Labelled(caption, value)) && CommaFree(" " + Labelled(caption, value))
  {
    assert forall c :: c in Labelled(caption, value) ==> c in caption || c in ": " || c in value;
  }

  /** Split at its commas, a list of comma-free pieces gives the pieces
      back, each after the first with the space that followed its comma. */
  lemma SplitCommaList4(a: string, b: string, c: string, d: string)
    requires CommaFree(a) && CommaFree(" " + b) && CommaFree(" " + c) && CommaFree(" " + d)
    ensures Split(CommaList4(a, b, c, d), ',') == [a, " " + b, " " + c, " " + d]
  {
    CommaSpace(a, b);
    SplitConcat(a, ',', " " + b);
    SplitNoSeparator(a, ',');
    SplitNoSeparator(" " + b, ',');
    var ab := a + ", " + b;
    CommaSpace(ab, c);
    SplitConcat(ab, ',', " " + c);
    SplitNoSeparator(" " + c, ',');
    var abc := ab + ", " + c;
    CommaSpace(abc, d);
    SplitConcat(abc, ',', " " + d);
    SplitNoSeparator(" " + d, ',');
  }

  /** The four labelled pieces of an embedding text; the colour's caption
      is "Color" in the text-only job and "Colour" in the multi-modal one. */
  function LabelledParts(colourCaption: string, m: string, p: string, c: string, s: string): seq<string> {
    [Labelled("Manufacturer", m), " " + Labelled("Pole Marking", p),
     " " + Labelled(colourCaption, c), " " + Labelled("Seam Marking", s)]
  }

  lemma SplitLabelled(colourCaption: string, m: string, p: string, c: string, s: string)
    requires CommaFree(colourCaption) && CommaFree(m) && CommaFree(p) && CommaFree(c) && CommaFree(s)
    ensures Split(CommaList4(Labelled("Manufacturer", m), Labelled("Pole Marking", p),
                             Labelled(colourCaption, c), Labelled("Seam Marking", s)), ',')
            == LabelledParts(colourCaption, m, p, c, s)
  {
    assert CommaFree("Manufacturer") && CommaFree("Pole Marking") && CommaFree("Seam Marking");
    LabelledCommaFree("Manufacturer", m);
    LabelledCommaFree("Pole Marking", p);
    LabelledCommaFree(colourCaption, c);
    LabelledCommaFree("Seam Marking", s);
    SplitCommaList4(Labelled("Manufacturer", m), Labelled("Pole Marking", p),
                    Labelled(colourCaption, c), Labelled("Seam Marking", s));
  }

  /** The multi-modal text names the four fields, in this order, under these
      captions; for comma-free values each can be read back from it. */
  lemma EmbeddingTextV2Fields(b: GolfBallV2)
    requires CommaFree(b.manufacturer) && CommaFree(b.poleMarking) && CommaFree(b.colour) && CommaFree(b.seamMarking)
    ensures Split(EmbeddingTextV2(b), ',') == LabelledParts("Colour", b.manufacturer, b.poleMarking, b.colour, b.seamMarking)
  {
    assert CommaFree("Colour");
    SplitLabelled("Colour", b.manufacturer, b.poleMarking, b.colour, b.seamMarking);
  }

  /** The text-only job's text: the same fields, with the caption "Color". */
  lemma EmbeddingTextV1Fields(b: GolfBallV1)
    requires CommaFree(b.manufacturer) && CommaFree(b.poleMarking) && CommaFree(b.colour) && CommaFree(b.seamMarking)
    ensures Split(EmbeddingTextV1(b), ',') == LabelledParts("Color", b.manufacturer, b.poleMarking, b.colour, b.seamMarking)
  {
    assert CommaFree("Color");
    SplitLabelled("Color", b.manufacturer, b.poleMarking, b.colour, b.seamMarking);
  }

  // ---------------------------------------------------------------------------
  // External services and the calls made to them
  // ---------------------------------------------------------------------------

  /** The embedding deployment and the vision service. */
  datatype Endpoints = Endpoints(
    embedText: string -> Result<seq<real>>,
    vision: VisionConfig,
    get: string -> GetReply,
    post: (string, seq<Byte>) -> PostReply)

  /** `GenerateImageEmbeddingAsyncV2(url)`. */
  function ImageEmbedding(ep: Endpoints, url: string): (r: Result<seq<real>>)
    ensures r.Ok? ==> |r.value| > 0
  {
    VectorizeImageUrl(ep.vision, url, ep.get, ep.post)
  }

  /** One external call a job makes. */
  datatype Call =
    | EmbedText(text: string)
    | EmbedImage(url: string)
    | UploadTextBatch(batchV1: seq<GolfBallV1>)
    | UploadBatch(batch: seq<GolfBallV2>)
    | WriteLog(path: string, entries: seq<string>)

  // ---------------------------------------------------------------------------
  // Multi-modal job: one row
  // ---------------------------------------------------------------------------

  /** How the body of the per-row `try` ends for one row. */
  datatype RowOutcome = Processed(ball: GolfBallV2) | Failed(ball: GolfBallV2, error: string)

  /** The per-row `try`: the text embedding first, then the image embedding
      unless `ImageUrl` is empty; the first exception ends the row, which
      keeps whatever was already assigned to it. */
  function ProcessRow(ball: GolfBallV2, ep: Endpoints): RowOutcome
  {
    match ep.embedText(EmbeddingTextV2(ball))
    case Err(e) => Failed(ball, e)
    case Ok(textVector) =>
      var withText := ball.(textVector := textVector);
      if ball.imageUrl == [] then Processed(withText.(imageVector := []))
      else
        match ImageEmbedding(ep, ball.imageUrl)
        case Err(e) => Failed(withText, e)
        case Ok(imageVector) => Processed(withText.(imageVector := imageVector))
  }

  /** A row ends processed exactly when both embeddings it needs succeed,
      with both vectors set; otherwise it fails with the first exception and
      keeps what was set before it. Its other fields never change. */
  lemma ProcessRowMeaning(ball: GolfBallV2, ep: Endpoints)
    ensures ProcessRow(ball, ep).ball.(textVector := ball.textVector, imageVector := ball.imageVector) == ball
    ensures ProcessRow(ball, ep).Processed? <==>
              ep.embedText(EmbeddingTextV2(ball)).Ok? && (ball.imageUrl == [] || ImageEmbedding(ep, ball.imageUrl).Ok?)
    ensures ep.embedText(EmbeddingTextV2(ball)).Err? ==>
              ProcessRow(ball, ep) == Failed(ball, ep.embedText(EmbeddingTextV2(ball)).message)
    ensures ep.embedText(EmbeddingTextV2(ball)).Ok? ==> ProcessRow(ball, ep).ball.textVector == ep.embedText(EmbeddingTextV2(ball)).value
    ensures ProcessRow(ball, ep).Processed? && ball.imageUrl == [] ==> ProcessRow(ball, ep).ball.imageVector == []
    ensures ProcessRow(ball, ep).Processed? && ball.imageUrl != [] ==> ProcessRow(ball, ep).ball.imageVector == ImageEmbedding(ep, ball.imageUrl).value
    ensures ProcessRow(ball, ep).Failed? && ep.embedText(EmbeddingTextV2(ball)).Ok? ==>
              ProcessRow(ball, ep).error == ImageEmbedding(ep, ball.imageUrl).message && ProcessRow(ball, ep).ball.imageVector == ball.imageVector
  {
  }

  /** The calls one row makes: always the text embedding, and the image
      embedding only when the text one succeeded and there is a URL. */
  function RowCalls(ball: GolfBallV2, ep: Endpoints): (calls: seq<Call>)
    ensures 1 <= |calls| <= 2 && calls[0] == EmbedText(EmbeddingTextV2(ball))
    ensures |calls| == 2 <==> ep.embedText(EmbeddingTextV2(ball)).Ok? && ball.imageUrl != []
    ensures |calls| == 2 ==> calls[1] == EmbedImage(ball.imageUrl)
  {
    [EmbedText(EmbeddingTextV2(ball))] +
    (if ep.embedText(EmbeddingTextV2(ball)).Ok? && ball.imageUrl != [] then [EmbedImage(ball.imageUrl)] else [])
  }

  // ---------------------------------------------------------------------------
  // Multi-modal job: all rows
  // ---------------------------------------------------------------------------

  /** `processedRows` after the loop. */
  function ProcessedRows(balls: seq<GolfBallV2>, ep: Endpoints): (rows: seq<GolfBallV2>)
    ensures |rows| <= |balls|
  {
    if balls == [] then []
    else
      var o := ProcessRow(balls[|balls| - 1], ep);
      ProcessedRows(balls[..|balls| - 1], ep) + (if o.Processed? then [o.ball] else [])
  }

  /** `failedRows` after the loop. */
  function FailedRows(balls: seq<GolfBallV2>, ep: Endpoints): (rows: seq<FailedRow>)
    ensures |rows| <= |balls|
  {
    if balls == [] then []
    else
      var o := ProcessRow(balls[|balls| - 1], ep);
      FailedRows(balls[..|balls| - 1], ep) + (if o.Failed? then [FailedRow(o.ball, o.error)] else [])
  }

  /** The calls the loop makes. */
  function LoopCalls(balls: seq<GolfBallV2>, ep: Endpoints): seq<Call> {
    if balls == [] then [] else LoopCalls(balls[..|balls| - 1], ep) + RowCalls(balls[|balls| - 1], ep)
  }

  /** Every row ends in exactly one of the two lists. */
  lemma {:induction false} PartitionCount(balls: seq<GolfBallV2>, ep: Endpoints)
    ensures |ProcessedRows(balls, ep)| + |FailedRows(balls, ep)| == |balls|
    decreases |balls|
  {
    if balls != [] {
      PartitionCount(balls[..|balls| - 1], ep);
    }
  }

  /** The loop is row by row: processing a + b is processing a, then b. */
  lemma RowsAppend(a: seq<GolfBallV2>, b: seq<GolfBallV2>, ep: Endpoints)
    ensures ProcessedRows(a + b, ep) == ProcessedRows(a, ep) + ProcessedRows(b, ep)
    ensures FailedRows(a + b, ep) == FailedRows(a, ep) + FailedRows(b, ep)
    ensures LoopCalls(a + b, ep) == LoopCalls(a, ep) + LoopCalls(b, ep)
  {
    ProcessedAppend(a, b, ep);
    FailedAppend(a, b, ep);
    CallsAppend(a, b, ep);
  }

  lemma {:induction false} ProcessedAppend(a: seq<GolfBallV2>, b: seq<GolfBallV2>, ep: Endpoints)
    ensures ProcessedRows(a + b, ep) == ProcessedRows(a, ep) + ProcessedRows(b, ep)
    decreases |b|
  {
    if b == [] {
      assert a + b == a;
    } else {
      ProcessedAppend(a, b[..|b| - 1], ep);
      assert (a + b)[..|a + b| - 1] == a + b[..|b| - 1];
      assert (a + b)[|a + b| - 1] == b[|b| - 1];
    }
  }

  lemma {:induction false} FailedAppend(a: seq<GolfBallV2>, b: seq<GolfBallV2>, ep: Endpoints)
    ensures FailedRows(a + b, ep) == FailedRows(a, ep) + FailedRows(b, ep)
    decreases |b|
  {
    if b == [] {
      assert a + b == a;
    } else {
      FailedAppend(a, b[..|b| - 1], ep);
      assert (a + b)[..|a + b| - 1] == a + b[..|b| - 1];
      assert (a + b)[|a + b| - 1] == b[|b| - 1];
    }
  }

  lemma {:induction false} CallsAppend(a: seq<GolfBallV2>, b: seq<GolfBallV2>, ep: Endpoints)
    ensures LoopCalls(a + b, ep) == LoopCalls(a, ep) + LoopCalls(b, ep)
    decreases |b|
  {
    if b == [] {
      assert a + b == a;
    } else {
      var init, last := b[..|b| - 1], b[|b| - 1];
      CallsAppend(a, init, ep);
      assert (a + b)[..|a + b| - 1] == a + init;
      assert (a + b)[|a + b| - 1] == last;
      ConcatAssoc(LoopCalls(a, ep), LoopCalls(init, ep), RowCalls(last, ep));
    }
  }

  lemma ConcatAssoc<T>(x: seq<T>, y: seq<T>, z: seq<T>)
    ensures (x + y) + z == x + (y + z)
  {
  }

  lemma OneRow(ball: GolfBallV2, ep: Endpoints)
    ensures var o := ProcessRow(ball, ep);
      && ProcessedRows([ball], ep) == (if o.Processed? then [o.ball] else [])
      && FailedRows([ball], ep) == (if o.Failed? then [FailedRow(o.ball, o.error)] else [])
      && LoopCalls([ball], ep) == RowCalls(ball, ep)
  {
    assert [ball][..0] == [];
  }

  /** One bad row never aborts the batch: the rows around it are processed
      exactly as they would be without it, and it alone is logged. */
  lemma BadRowIsolated(before: seq<GolfBallV2>, bad: GolfBallV2, after: seq<GolfBallV2>, ep: Endpoints)
    requires ProcessRow(bad, ep).Failed?
    ensures ProcessedRows(before + [bad] + after, ep) == ProcessedRows(before, ep) + ProcessedRows(after, ep)
    ensures FailedRows(before + [bad] + after, ep) ==
              FailedRows(before, ep) + [FailedRow(ProcessRow(bad, ep).ball, ProcessRow(bad, ep).error)] + FailedRows(after, ep)
  {
    BadRowNotProcessed(before, bad, after, ep);
    BadRowLogged(before, bad, after, ep);
  }

  lemma BadRowNotProcessed(before: seq<GolfBallV2>, bad: GolfBallV2, after: seq<GolfBallV2>, ep: Endpoints)
    requires ProcessRow(bad, ep).Failed?
    ensures ProcessedRows(before + [bad] + after, ep) == ProcessedRows(before, ep) + ProcessedRows(after, ep)
  {
    OneRow(bad, ep);
    var p0, p1 := ProcessedRows(before, ep), ProcessedRows(after, ep);
    assert ProcessedRows([bad], ep) == [];
    ProcessedAppend(before, [bad], ep);
    assert ProcessedRows(before + [bad], ep) == p0 + [];
    ProcessedAppend(before + [bad], after, ep);
    assert p0 + [] == p0;
  }

  lemma BadRowLogged(before: seq<GolfBallV2>, bad: GolfBallV2, after: seq<GolfBallV2>, ep: Endpoints)
    requires ProcessRow(bad, ep).Failed?
    ensures FailedRows(before + [bad] + after, ep) ==
              FailedRows(before, ep) + [FailedRow(ProcessRow(bad, ep).ball, ProcessRow(bad, ep).error)] + FailedRows(after, ep)
  {
    OneRow(bad, ep);
    var o := ProcessRow(bad, ep);
    assert FailedRows([bad], ep) == [FailedRow(o.ball, o.error)];
    FailedAppend(before, [bad], ep);
    FailedAppend(before + [bad], after, ep);
  }

  /** Each row's outcome is in the list it belongs to. */
  lemma EveryRowAccountedFor(balls: seq<GolfBallV2>, j: int, ep: Endpoints)
    requires 0 <= j < |balls|
    ensures ProcessRow(balls[j], ep).Processed? ==> ProcessRow(balls[j], ep).ball in ProcessedRows(balls, ep)
    ensures ProcessRow(balls[j], ep).Failed? ==>
              FailedRow(ProcessRow(balls[j], ep).ball, ProcessRow(balls[j], ep).error) in FailedRows(balls, ep)
  {
    assert balls == balls[..j] + [balls[j]] + balls[j + 1..];
    ProcessedAppend(balls[..j] + [balls[j]], balls[j + 1..], ep);
    ProcessedAppend(balls[..j], [balls[j]], ep);
    FailedAppend(balls[..j] + [balls[j]], balls[j + 1..], ep);
    FailedAppend(balls[..j], [balls[j]], ep);
    OneRow(balls[j], ep);
  }

  /** And nothing else is in the lists. */
  lemma {:induction false} ListsHoldOnlyOutcomes(balls: seq<GolfBallV2>, ep: Endpoints)
    ensures forall x :: x in ProcessedRows(balls, ep) ==>
              exists j :: 0 <= j < |balls| && ProcessRow(balls[j], ep) == Processed(x)
    ensures forall f :: f in FailedRows(balls, ep) ==>
              exists j :: 0 <= j < |balls| && ProcessRow(balls[j], ep) == Failed(f.ball, f.error)
    decreases |balls|
  {
    if balls != [] {
      var init := balls[..|balls| - 1];
      ListsHoldOnlyOutcomes(init, ep);
      forall j | 0 <= j < |init| ensures init[j] == balls[j] {
      }
    }
  }

  /** Processed rows carry an image vector exactly when they have a URL. */
  lemma {:induction false} ImageVectorRule(balls: seq<GolfBallV2>, ep: Endpoints)
    ensures forall x :: x in ProcessedRows(balls, ep) ==>
              (x.imageUrl == [] ==> x.imageVector == []) && (x.imageUrl != [] ==> |x.imageVector| > 0)
    decreases |balls|
  {
    if balls != [] {
      ImageVectorRule(balls[..|balls| - 1], ep);
      ProcessRowMeaning(balls[|balls| - 1], ep);
    }
  }

  /** If the two endpoints always return vectors of the declared sizes, every
      processed row fits the multi-modal schema (1536 and 1024); nothing in
      the job itself checks those sizes. */
  lemma {:induction false} DeclaredDimensions(balls: seq<GolfBallV2>, ep: Endpoints, textDims: nat, imageDims: nat)
    requires forall t :: ep.embedText(t).Ok? ==> |ep.embedText(t).value| == textDims
    requires forall u :: ImageEmbedding(ep, u).Ok? ==> |ImageEmbedding(ep, u).value| == imageDims
    ensures forall x :: x in ProcessedRows(balls, ep) ==>
              |x.textVector| == textDims && (x.imageUrl == [] || |x.imageVector| == imageDims)
    decreases |balls|
  {
    if balls != [] {
      DeclaredDimensions(balls[..|balls| - 1], ep, textDims, imageDims);
      ProcessRowMeaning(balls[|balls| - 1], ep);
    }
  }

  /** No row without a URL reaches the vision service. */
  lemma {:induction false} ImageCallsHaveUrls(balls: seq<GolfBallV2>, ep: Endpoints)
    ensures forall i :: 0 <= i < |LoopCalls(balls, ep)| && LoopCalls(balls, ep)[i].EmbedImage? ==>
              LoopCalls(balls, ep)[i].url != []
    decreases |balls|
  {
    if balls != [] {
      var init := balls[..|balls| - 1];
      ImageCallsHaveUrls(init, ep);
      var c0: seq<Call>, c1: seq<Call> := LoopCalls(init, ep), RowCalls(balls[|balls| - 1], ep);
      forall i | 0 <= i < |c0 + c1| && (c0 + c1)[i].EmbedImage?
        ensures (c0 + c1)[i].url != []
      {
        if i >= |c0| {
          assert (c0 + c1)[i] == c1[i - |c0|];
        }
      }
    }
  }

  lemma RowsStep(balls: seq<GolfBallV2>, i: int, ep: Endpoints)
    requires 0 <= i < |balls|
    ensures var o := ProcessRow(balls[i], ep);
      && ProcessedRows(balls[..i + 1], ep) == ProcessedRows(balls[..i], ep) + (if o.Processed? then [o.ball] else [])
      && FailedRows(balls[..i + 1], ep) == FailedRows(balls[..i], ep) + (if o.Failed? then [FailedRow(o.ball, o.error)] else [])
      && LoopCalls(balls[..i + 1], ep) == LoopCalls(balls[..i], ep) + RowCalls(balls[i], ep)
  {
    assert balls[..i + 1][..i] == balls[..i];
  }

  /** The body of the multi-modal `foreach` for one row: its outcome and
      the calls it makes. */
  method ProcessOne(ball: GolfBallV2, ep: Endpoints) returns (o: RowOutcome, calls: seq<Call>)
    ensures o == ProcessRow(ball, ep)
    ensures calls == RowCalls(ball, ep)
  {
    var golfBall := ball;
    var textForEmbedding := EmbeddingTextV2(golfBall);
    var textEmbedding := ep.embedText(textForEmbedding);
    calls := [EmbedText(textForEmbedding)];
    if textEmbedding.Err? {
      return Failed(golfBall, textEmbedding.message), calls;
    }
    golfBall := golfBall.(textVector := textEmbedding.value);
    if golfBall.imageUrl == [] {
      golfBall := golfBall.(imageVector := []);
      return Processed(golfBall), calls;
    }
    var imageEmbedding := ImageEmbedding(ep, golfBall.imageUrl);
    calls := calls + [EmbedImage(golfBall.imageUrl)];
    if imageEmbedding.Err? {
      return Failed(golfBall, imageEmbedding.message), calls;
    }
    golfBall := golfBall.(imageVector := imageEmbedding.value);
    o := Processed(golfBall);
  }

  /** The `foreach` of the multi-modal job: each row is processed in its own
      `try`, so a row that throws is recorded and the loop goes on. */
  method ProcessAll(golfBalls: seq<GolfBallV2>, ep: Endpoints)
    returns (processedRows: seq<GolfBallV2>, failedRows: seq<FailedRow>, calls: seq<Call>)
    ensures processedRows == ProcessedRows(golfBalls, ep)
    ensures failedRows == FailedRows(golfBalls, ep)
    ensures calls == LoopCalls(golfBalls, ep)
  {
    processedRows, failedRows, calls := [], [], [];
    var i := 0;
    while i < |golfBalls|
      invariant 0 <= i <= |golfBalls|
      invariant processedRows == ProcessedRows(golfBalls[..i], ep)
      invariant failedRows == FailedRows(golfBalls[..i], ep)
      invariant calls == LoopCalls(golfBalls[..i], ep)
    {
      RowsStep(golfBalls, i, ep);
      var o, rowCalls := ProcessOne(golfBalls[i], ep);
      calls := calls + rowCalls;
      match o {
        case Processed(ball) => processedRows := processedRows + [ball];
        case Failed(ball, error) => failedRows := failedRows + [FailedRow(ball, error)];
      }
      i := i + 1;
    }
    assert golfBalls[..|golfBalls|] == golfBalls;
  }

  /** How the multi-modal job ends once `golfBalls` are loaded: every row
      processed in order, then the processed rows uploaded in one batch (if
      any), then the failed ones logged beside `csvFilePath` (if any). An
      upload that fails ends the job with nothing logged; a log path that
      cannot be derived, or a log write that fails, is the job's failure. */
  ghost predicate MultiModalRun(
      csvFilePath: string, golfBalls: seq<GolfBallV2>, ep: Endpoints,
      upload: seq<GolfBallV2> -> Outcome, writeLog: (string, seq<string>) -> Outcome, clock: nat -> string,
      outcome: Outcome, processedRows: seq<GolfBallV2>, failedRows: seq<FailedRow>, trace: seq<Call>)
  {
    var uploadCalls := if processedRows == [] then [] else [UploadBatch(processedRows)];
    var uploaded := if processedRows == [] then Pass else upload(processedRows);
    var logPath := FailureLogPath(csvFilePath);
    var entries := LogEntries(failedRows, clock);
    && processedRows == ProcessedRows(golfBalls, ep)
    && failedRows == FailedRows(golfBalls, ep)
    && (uploaded.Fail? ==> outcome == uploaded && trace == LoopCalls(golfBalls, ep) + uploadCalls)
    && (uploaded.Pass? && failedRows == [] ==> outcome == Pass && trace == LoopCalls(golfBalls, ep) + uploadCalls)
    && (uploaded.Pass? && failedRows != [] && logPath.Err? ==>
          outcome == Fail(logPath.message) && trace == LoopCalls(golfBalls, ep) + uploadCalls)
    && (uploaded.Pass? && failedRows != [] && logPath.Ok? ==>
          outcome == writeLog(logPath.value, entries)
          && trace == LoopCalls(golfBalls, ep) + uploadCalls + [WriteLog(logPath.value, entries)])
  }

  /** The multi-modal job after loading. */
  method ProcessUploadAndLog(
      csvFilePath: string, golfBalls: seq<GolfBallV2>, ep: Endpoints,
      upload: seq<GolfBallV2> -> Outcome, writeLog: (string, seq<string>) -> Outcome, clock: nat -> string)
    returns (outcome: Outcome, processedRows: seq<GolfBallV2>, failedRows: seq<FailedRow>, trace: seq<Call>)
    ensures MultiModalRun(csvFilePath, golfBalls, ep, upload, writeLog, clock, outcome, processedRows, failedRows, trace)
  {
    processedRows, failedRows, trace := ProcessAll(golfBalls, ep);
    if processedRows != [] {
      trace := trace + [UploadBatch(processedRows)];
      var result := upload(processedRows);
      if result.Fail? {
        return result, processedRows, failedRows, trace;
      }
    }
    if failedRows != [] {
      var logFilePath := FailureLogPath(csvFilePath);
      if logFilePath.Err? {
        return Fail(logFilePath.message), processedRows, failedRows, trace;
      }
      var entries := LogEntries(failedRows, clock);
      trace := trace + [WriteLog(logFilePath.value, entries)];
      outcome := writeLog(logFilePath.value, entries);
      return;
    }
    outcome := Pass;
  }

  /** `UploadGolfBallDataTextImageAsyncV2`. `csvFilePath` is the file the
      rows come from; the failure log goes beside it (see `FailureLogPath`).
      A load that throws, or loads nothing, ends the job before any call. */
  method UploadTextImage(
      csvFilePath: string, file: Result<seq<string>>, freshId: nat -> string, ep: Endpoints,
      upload: seq<GolfBallV2> -> Outcome, writeLog: (string, seq<string>) -> Outcome, clock: nat -> string)
    returns (outcome: Outcome, processedRows: seq<GolfBallV2>, failedRows: seq<FailedRow>, trace: seq<Call>)
    ensures LoadV2(file, freshId).Err? ==>
              outcome == Fail(LoadV2(file, freshId).message) && trace == [] && processedRows == [] && failedRows == []
    ensures LoadV2(file, freshId) == Ok([]) ==>
              outcome == Fail(NoDataMessage) && trace == [] && processedRows == [] && failedRows == []
    ensures LoadV2(file, freshId).Ok? && LoadV2(file, freshId).value != [] ==>
              MultiModalRun(csvFilePath, LoadV2(file, freshId).value, ep, upload, writeLog, clock,
                            outcome, processedRows, failedRows, trace)
  {
    var golfBalls := LoadGolfBallsV2(file, freshId);
    if golfBalls.Err? {
      return Fail(golfBalls.message), [], [], [];
    }
    if golfBalls.value == [] {
      return Fail(NoDataMessage), [], [], [];
    }
    outcome, processedRows, failedRows, trace := ProcessUploadAndLog(csvFilePath, golfBalls.value, ep, upload, writeLog, clock);
  }

  /** The row loop calls only the two embedding services. */
  lemma {:induction false} LoopCallsOnlyEmbed(balls: seq<GolfBallV2>, ep: Endpoints)
    ensures forall i :: 0 <= i < |LoopCalls(balls, ep)| ==>
              LoopCalls(balls, ep)[i].EmbedText? || LoopCalls(balls, ep)[i].EmbedImage?
    decreases |balls|
  {
    if balls != [] {
      var init := balls[..|balls| - 1];
      LoopCallsOnlyEmbed(init, ep);
      var c0: seq<Call>, c1: seq<Call> := LoopCalls(init, ep), RowCalls(balls[|balls| - 1], ep);
      forall i | 0 <= i < |c0 + c1| ensures (c0 + c1)[i].EmbedText? || (c0 + c1)[i].EmbedImage? {
        if i >= |c0| {
          assert (c0 + c1)[i] == c1[i - |c0|];
        }
      }
    }
  }

  /** A multi-modal run's calls: the row calls, the upload if any rows were
      processed, then at most one log write. */
  lemma RunTraceShape(
      csvFilePath: string, golfBalls: seq<GolfBallV2>, ep: Endpoints,
      upload: seq<GolfBallV2> -> Outcome, writeLog: (string, seq<string>) -> Outcome, clock: nat -> string,
      outcome: Outcome, processedRows: seq<GolfBallV2>, failedRows: seq<FailedRow>, trace: seq<Call>)
    requires MultiModalRun(csvFilePath, golfBalls, ep, upload, writeLog, clock, outcome, processedRows, failedRows, trace)
    ensures var n := |LoopCalls(golfBalls, ep)| + (if processedRows == [] then 0 else 1);
      && n <= |trace| <= n + 1
      && trace[..n] == LoopCalls(golfBalls, ep) + (if processedRows == [] then [] else [UploadBatch(processedRows)])
      && (|trace| == n + 1 ==> trace[n].WriteLog?)
  {
    var loop := LoopCalls(golfBalls, ep);
    var uploadCalls: seq<Call> := if processedRows == [] then [] else [UploadBatch(processedRows)];
    var uploaded := if processedRows == [] then Pass else upload(processedRows);
    var logPath := FailureLogPath(csvFilePath);
    if uploaded.Fail? || failedRows == [] || logPath.Err? {
      assert trace == loop + uploadCalls;
      assert trace[..|loop + uploadCalls|] == loop + uploadCalls;
    } else {
      var w := WriteLog(logPath.value, LogEntries(failedRows, clock));
      assert trace == loop + uploadCalls + [w];
      assert trace[..|loop + uploadCalls|] == loop + uploadCalls;
    }
  }

  /** The multi-modal job uploads at most once, right after the row calls,
      with exactly the processed rows, and never when no row was processed. */
  lemma SingleUpload(
      csvFilePath: string, golfBalls: seq<GolfBallV2>, ep: Endpoints,
      upload: seq<GolfBallV2> -> Outcome, writeLog: (string, seq<string>) -> Outcome, clock: nat -> string,
      outcome: Outcome, processedRows: seq<GolfBallV2>, failedRows: seq<FailedRow>, trace: seq<Call>)
    requires MultiModalRun(csvFilePath, golfBalls, ep, upload, writeLog, clock, outcome, processedRows, failedRows, trace)
    ensures forall i :: 0 <= i < |trace| && trace[i].UploadBatch? ==>
              i == |LoopCalls(golfBalls, ep)| && trace[i].batch == processedRows
    ensures processedRows != [] ==>
              |LoopCalls(golfBalls, ep)| < |trace| && trace[|LoopCalls(golfBalls, ep)|] == UploadBatch(processedRows)
    ensures processedRows == [] ==> forall i :: 0 <= i < |trace| ==> !trace[i].UploadBatch?
  {
    var loop := LoopCalls(golfBalls, ep);
    LoopCallsOnlyEmbed(golfBalls, ep);
    RunTraceShape(csvFilePath, golfBalls, ep, upload, writeLog, clock, outcome, processedRows, failedRows, trace);
    var uploadCalls: seq<Call> := if processedRows == [] then [] else [UploadBatch(processedRows)];
    var n := |loop| + |uploadCalls|;
    forall i | 0 <= i < |trace| && trace[i].UploadBatch?
      ensures i == |loop| && trace[i].batch == processedRows
    {
      if i < n {
        assert trace[i] == trace[..n][i];
      }
    }
    if processedRows != [] {
      assert trace[|loop|] == trace[..n][|loop|];
    }
  }

  /** As written, the log path comes from `_csvFileName`, which is always
      empty: once any row has failed and the upload (if any) succeeded, the
      job throws `ArgumentNullException` and writes no log. */
  lemma AsWrittenFailedRowsThrow(
      golfBalls: seq<GolfBallV2>, ep: Endpoints,
      upload: seq<GolfBallV2> -> Outcome, writeLog: (string, seq<string>) -> Outcome, clock: nat -> string,
      outcome: Outcome, processedRows: seq<GolfBallV2>, failedRows: seq<FailedRow>, trace: seq<Call>)
    requires MultiModalRun(CsvFileNameField, golfBalls, ep, upload, writeLog, clock, outcome, processedRows, failedRows, trace)
    requires failedRows != [] && (processedRows == [] || upload(processedRows).Pass?)
    ensures outcome == Fail(ArgumentNullMessage("path1"))
    ensures forall i :: 0 <= i < |trace| ==> !trace[i].WriteLog?
  {
    LogPathFromFileNameFieldThrows();
    LoopCallsOnlyEmbed(golfBalls, ep);
    var loop := LoopCalls(golfBalls, ep);
    var uploadCalls: seq<Call> := if processedRows == [] then [] else [UploadBatch(processedRows)];
    assert trace == loop + uploadCalls;
    forall i | 0 <= i < |trace| ensures !trace[i].WriteLog? {
      if i < |loop| {
        assert trace[i] == loop[i];
      }
    }
  }

  /** A job whose rows all fail uploads nothing. */
  lemma {:induction false} NothingProcessedNothingUploaded(balls: seq<GolfBallV2>, ep: Endpoints)
    requires forall j :: 0 <= j < |balls| ==> ProcessRow(balls[j], ep).Failed?
    ensures ProcessedRows(balls, ep) == []
    ensures |FailedRows(balls, ep)| == |balls|
    decreases |balls|
  {
    if balls != [] {
      var init := balls[..|balls| - 1];
      forall j | 0 <= j < |init| ensures ProcessRow(init[j], ep).Failed? {
        assert init[j] == balls[j];
      }
      NothingProcessedNothingUploaded(init, ep);
    }
  }

  // ---------------------------------------------------------------------------
  // Text-only job
  // ---------------------------------------------------------------------------

  /** The `foreach` of the text-only job: embed each row in turn, stopping
      at the first embedding that throws. */
  method EmbedAll(golfBalls: seq<GolfBallV1>, embedText: string -> Result<seq<real>>)
    returns (embedded: Result<seq<GolfBallV1>>, calls: seq<Call>)
    ensures |calls| <= |golfBalls|
    ensures forall j :: 0 <= j < |calls| ==> calls[j] == EmbedText(EmbeddingTextV1(golfBalls[j]))
    ensures embedded.Ok? <==> forall j :: 0 <= j < |golfBalls| ==> embedText(EmbeddingTextV1(golfBalls[j])).Ok?
    ensures embedded.Ok? ==>
              && |calls| == |golfBalls| && |embedded.value| == |golfBalls|
              && forall j :: 0 <= j < |golfBalls| ==>
                   embedded.value[j] == golfBalls[j].(vectorContent := embedText(EmbeddingTextV1(golfBalls[j])).value)
    ensures embedded.Err? ==>
              && 1 <= |calls|
              && embedText(EmbeddingTextV1(golfBalls[|calls| - 1])) == Err(embedded.message)
              && forall j :: 0 <= j < |calls| - 1 ==> embedText(EmbeddingTextV1(golfBalls[j])).Ok?
  {
    calls := [];
    var balls: seq<GolfBallV1> := [];
    var i := 0;
    while i < |golfBalls|
      invariant 0 <= i <= |golfBalls|
      invariant |calls| == i && |balls| == i
      invariant forall j :: 0 <= j < i ==> calls[j] == EmbedText(EmbeddingTextV1(golfBalls[j]))
      invariant forall j :: 0 <= j < i ==> embedText(EmbeddingTextV1(golfBalls[j])).Ok?
      invariant forall j :: 0 <= j < i ==>
                  balls[j] == golfBalls[j].(vectorContent := embedText(EmbeddingTextV1(golfBalls[j])).value)
    {
      var textForEmbedding := EmbeddingTextV1(golfBalls[i]);
      var embedding := embedText(textForEmbedding);
      calls := calls + [EmbedText(textForEmbedding)];
      if embedding.Err? {
        return Err(embedding.message), calls;
      }
      balls := balls + [golfBalls[i].(vectorContent := embedding.value)];
      i := i + 1;
    }
    embedded := Ok(balls);
  }

  /** How the text-only job ends once `golfBalls` are loaded: the rows are
      embedded in order; if every embedding succeeds, all rows, each with
      its vector, are uploaded in one batch and the upload's outcome is the
      job's; otherwise the job fails with the first embedding's exception,
      after calling the embedding for that row and the rows before it, and
      uploads nothing. */
  ghost predicate TextOnlyRun(
      golfBalls: seq<GolfBallV1>, embedText: string -> Result<seq<real>>, upload: seq<GolfBallV1> -> Outcome,
      outcome: Outcome, trace: seq<Call>)
  {
    var n := |golfBalls|;
    && (forall j :: 0 <= j < |trace| && j < n ==> trace[j] == EmbedText(EmbeddingTextV1(golfBalls[j])))
    && ((forall j :: 0 <= j < n ==> embedText(EmbeddingTextV1(golfBalls[j])).Ok?) ==>
          && |trace| == n + 1
          && trace[n].UploadTextBatch? && |trace[n].batchV1| == n
          && (forall j :: 0 <= j < n ==>
                trace[n].batchV1[j] == golfBalls[j].(vectorContent := embedText(EmbeddingTextV1(golfBalls[j])).value))
          && outcome == upload(trace[n].batchV1))
    && (!(forall j :: 0 <= j < n ==> embedText(EmbeddingTextV1(golfBalls[j])).Ok?) ==>
          && outcome.Fail?
          && 1 <= |trace| <= n
          && (forall j :: 0 <= j < |trace| - 1 ==> embedText(EmbeddingTextV1(golfBalls[j])).Ok?)
          && embedText(EmbeddingTextV1(golfBalls[|trace| - 1])) == Err(outcome.message))
  }

  /** The text-only job after loading. */
  method EmbedAndUpload(
      golfBalls: seq<GolfBallV1>, embedText: string -> Result<seq<real>>, upload: seq<GolfBallV1> -> Outcome)
    returns (outcome: Outcome, trace: seq<Call>)
    ensures TextOnlyRun(golfBalls, embedText, upload, outcome, trace)
  {
    var embedded;
    embedded, trace := EmbedAll(golfBalls, embedText);
    if embedded.Err? {
      return Fail(embedded.message), trace;
    }
    trace := trace + [UploadTextBatch(embedded.value)];
    outcome := upload(embedded.value);
  }

  /** `UploadGolfBallDataTextOnlyAsync`: no per-row `try`, so the first
      embedding that throws ends the job before anything is uploaded. A load
      that throws, or loads nothing, ends it before any call. */
  method UploadTextOnly(
      file: Result<seq<string>>, freshId: nat -> string,
      embedText: string -> Result<seq<real>>, upload: seq<GolfBallV1> -> Outcome)
    returns (outcome: Outcome, trace: seq<Call>)
    ensures LoadV1(file, freshId).Err? ==> outcome == Fail(LoadV1(file, freshId).message) && trace == []
    ensures LoadV1(file, freshId) == Ok([]) ==> outcome == Fail(NoDataMessage) && trace == []
    ensures LoadV1(file, freshId).Ok? && LoadV1(file, freshId).value != [] ==>
              TextOnlyRun(LoadV1(file, freshId).value, embedText, upload, outcome, trace)
  {
    var golfBalls := LoadGolfBallsV1(file, freshId);
    if golfBalls.Err? {
      return Fail(golfBalls.message), [];
    }
    if golfBalls.value == [] {
      return Fail(NoDataMessage), [];
    }
    outcome, trace := EmbedAndUpload(golfBalls.value, embedText, upload);
  }
}
