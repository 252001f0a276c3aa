/** The two golf-ball record shapes, and the loosely typed document the search
    engine hands back. */
module GolfBallData {

  /** A record of the text-only index (GolfBallDataV1): the scalar columns
      plus one embedding, `VectorContent`. */
  datatype GolfBallV1 = GolfBallV1(
    id: string,
    manufacturer: string,
    usgaLotNum: string,
    poleMarking: string,
    colour: string,
    constCode: string,
    ballSpecs: string,
    dimples: int,
    spin: string,
    pole2: string,
    seamMarking: string,
    imageUrl: string,
    vectorContent: seq<real>)

  /** A record of the multi-modal index (GolfBallDataV2): the same scalar
      columns plus a text embedding and an image embedding. */
  datatype GolfBallV2 = GolfBallV2(
    id: string,
    manufacturer: string,
    usgaLotNum: string,
    poleMarking: string,
    colour: string,
    constCode: string,
    ballSpecs: string,
    dimples: int,
    spin: string,
    pole2: string,
    seamMarking: string,
    imageUrl: string,
    textVector: seq<real>,
    imageVector: seq<real>)

  /** `new GolfBallDataV1()`: every string empty, `Dimples` 0, no vector, and
      `id` the freshly generated GUID (supplied by the caller). */
  function NewGolfBallV1(id: string): GolfBallV1 {
    GolfBallV1(id, "", "", "", "", "", "", 0, "", "", "", "", [])
  }

  /** `new GolfBallDataV2()`, with the same defaults. */
  function NewGolfBallV2(id: string): GolfBallV2 {
    GolfBallV2(id, "", "", "", "", "", "", 0, "", "", "", "", [], [])
  }

  /** A value stored in a returned search document: JSON null, a string or a
      number. */
  datatype FieldValue = NullValue | Text(s: string) | Number(n: int)

  /** A returned search document (`SearchDocument`), keyed by field name. */
  type Document = map<string, FieldValue>
}
