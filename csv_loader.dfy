/** The CSV loaders `LoadGolfBallsFromCsvAsyncV1` and `...V2`: read every
    line, drop the header, split each remaining line on ',' and assign
    columns 1 to 11 positionally; column 0 and the header are never used and
    `Id` is the fresh GUID every new record gets. */
module GolfBallCsv {
  import opened Wrappers
  import opened DotNetText
  import opened GolfBallData

  const IndexOutOfRangeMessage: string := "Index was outside the bounds of the array."

  /** The eleven columns a data line supplies, in file order. */
  datatype Row = Row(
    manufacturer: string,
    usgaLotNum: string,
    poleMarking: string,
    colour: string,
    constCode: string,
    ballSpecs: string,
    dimples: int,
    spin: string,
    pole2: string,
    seamMarking: string,
    imageUrl: string)

  /** One data line, read as the object initializer reads it: columns 1..6,
      then `int.Parse` of column 7, then columns 8..11. The first access past
      the end of the split throws. */
  function ParseRow(line: string): (r: Result<Row>)
    ensures var v := Split(line, ',');
      && (|v| < 8 ==> r == Err(IndexOutOfRangeMessage))
      && (|v| >= 8 && ParseInt32(v[7]).Err? ==> r == Err(ParseInt32(v[7]).message))
      && (|v| >= 8 && ParseInt32(v[7]).Ok? && |v| < 12 ==> r == Err(IndexOutOfRangeMessage))
      && (r.Ok? <==> |v| >= 12 && ParseInt32(v[7]).Ok?)
    ensures r.Ok? ==> var v := Split(line, ',');
      && r.value.manufacturer == v[1] && r.value.usgaLotNum == v[2]
      && r.value.poleMarking == v[3] && r.value.colour == v[4]
      && r.value.constCode == v[5] && r.value.ballSpecs == v[6]
      && r.value.dimples == ParseInt32(v[7]).value && InInt32Range(r.value.dimples)
      && r.value.spin == v[8] && r.value.pole2 == v[9]
      && r.value.seamMarking == v[10] && r.value.imageUrl == v[11]
  {
    ParseColumns(Split(line, ','))
  }

  /** The object initializer over the split columns `v`. */
  function ParseColumns(v: seq<string>): Result<Row> {
    if |v| < 8 then Err(IndexOutOfRangeMessage)
    else
      var dimples :- ParseInt32(v[7]);
      if |v| < 12 then Err(IndexOutOfRangeMessage)
      else Ok(Row(v[1], v[2], v[3], v[4], v[5], v[6], dimples, v[8], v[9], v[10], v[11]))
  }

  lemma ColumnsIgnoreFirst(a: string, b: string, t: seq<string>)
    ensures ParseColumns([a] + t) == ParseColumns([b] + t)
  {
    var va, vb := [a] + t, [b] + t;
    assert |va| == |vb|;
    assert forall k :: 1 <= k < |va| ==> va[k] == vb[k];
  }

  /** A data line as a spreadsheet would write it: a leading column the
      loader ignores, then the eleven columns. */
  function RowLine(lead: string, row: Row): string {
    Join([lead, row.manufacturer, row.usgaLotNum, row.poleMarking, row.colour, row.constCode,
          row.ballSpecs, IntToString(row.dimples), row.spin, row.pole2, row.seamMarking, row.imageUrl], ',')
  }

  predicate CommaFree(s: string) { ',' !in s }

  /** Every text column can be written without a comma. */
  predicate Writable(row: Row) {
    && CommaFree(row.manufacturer) && CommaFree(row.usgaLotNum) && CommaFree(row.poleMarking)
    && CommaFree(row.colour) && CommaFree(row.constCode) && CommaFree(row.ballSpecs)
    && CommaFree(row.spin) && CommaFree(row.pole2) && CommaFree(row.seamMarking)
    && CommaFree(row.imageUrl) && InInt32Range(row.dimples)
  }

  lemma NumberIsCommaFree(n: int)
    ensures CommaFree(IntToString(n))
  {
    var s := IntToString(n);
    var digits := NatToString(if n < 0 then -n else n);
    forall i | 0 <= i < |s|
      ensures s[i] != ','
    {
      if n < 0 && i > 0 {
        assert s[i] == digits[i - 1];
      }
    }
  }

  /** Reading back a written line gives the row that was written, whatever
      the leading column holds. */
  lemma ParseRowLine(lead: string, row: Row)
    requires CommaFree(lead) && Writable(row)
    ensures ParseRow(RowLine(lead, row)) == Ok(row)
  {
    NumberIsCommaFree(row.dimples);
    var parts := [lead, row.manufacturer, row.usgaLotNum, row.poleMarking, row.colour, row.constCode,
                  row.ballSpecs, IntToString(row.dimples), row.spin, row.pole2, row.seamMarking, row.imageUrl];
    forall i | 0 <= i < |parts|
      ensures ',' !in parts[i]
    {
    }
    SplitJoin(parts, ',');
    assert Split(RowLine(lead, row), ',') == parts;
    ParseIntToString(row.dimples);
    ColumnsOfRow(lead, row, IntToString(row.dimples));
  }

  /** The columns of a written row parse back to that row, given column 7
      parses to its dimple count. */
  lemma ColumnsOfRow(lead: string, row: Row, dimples: string)
    requires ParseInt32(dimples) == Ok(row.dimples)
    ensures ParseColumns([lead, row.manufacturer, row.usgaLotNum, row.poleMarking, row.colour, row.constCode,
                          row.ballSpecs, dimples, row.spin, row.pole2, row.seamMarking, row.imageUrl]) == Ok(row)
  {
  }

  /** Column 0 never affects the record. */
  lemma ParseRowIgnoresFirstColumn(a: string, b: string, rest: string)
    requires CommaFree(a) && CommaFree(b)
    ensures ParseRow(a + [','] + rest) == ParseRow(b + [','] + rest)
  {
    SplitPrefix(a, ',', rest);
    SplitPrefix(b, ',', rest);
    ColumnsIgnoreFirst(a, b, Split(rest, ','));
  }

  /** Columns past the twelfth are never read. */
  lemma ParseRowIgnoresExtraColumns(line: string, extra: string)
    requires |Split(line, ',')| >= 12
    ensures ParseRow(line + [','] + extra) == ParseRow(line)
  {
    SplitConcat(line, ',', extra);
    var v := Split(line, ',');
    var w := Split(line + [','] + extra, ',');
    assert w[..12] == v[..12];
  }

  /** The record `new GolfBallDataV1 { ... }` builds from a row. */
  function ToV1(row: Row, id: string): (b: GolfBallV1)
    ensures b.id == id && b.vectorContent == []
  {
    NewGolfBallV1(id).(manufacturer := row.manufacturer, usgaLotNum := row.usgaLotNum,
      poleMarking := row.poleMarking, colour := row.colour, constCode := row.constCode,
      ballSpecs := row.ballSpecs, dimples := row.dimples, spin := row.spin, pole2 := row.pole2,
      seamMarking := row.seamMarking, imageUrl := row.imageUrl)
  }

  /** The record `new GolfBallDataV2 { ... }` builds from a row. */
  function ToV2(row: Row, id: string): (b: GolfBallV2)
    ensures b.id == id && b.textVector == [] && b.imageVector == []
  {
    NewGolfBallV2(id).(manufacturer := row.manufacturer, usgaLotNum := row.usgaLotNum,
      poleMarking := row.poleMarking, colour := row.colour, constCode := row.constCode,
      ballSpecs := row.ballSpecs, dimples := row.dimples, spin := row.spin, pole2 := row.pole2,
      seamMarking := row.seamMarking, imageUrl := row.imageUrl)
  }

  function WithIdsV1(rows: seq<Row>, freshId: nat -> string): (balls: seq<GolfBallV1>)
    ensures |balls| == |rows|
    ensures forall j :: 0 <= j < |rows| ==> balls[j] == ToV1(rows[j], freshId(j))
  {
    seq(|rows|, j requires 0 <= j < |rows| => ToV1(rows[j], freshId(j)))
  }

  function WithIdsV2(rows: seq<Row>, freshId: nat -> string): (balls: seq<GolfBallV2>)
    ensures |balls| == |rows|
    ensures forall j :: 0 <= j < |rows| ==> balls[j] == ToV2(rows[j], freshId(j))
  {
    seq(|rows|, j requires 0 <= j < |rows| => ToV2(rows[j], freshId(j)))
  }

  /** What the V1 loader yields for the lines `File.ReadAllLinesAsync`
      returned (or the exception it threw). `freshId(j)` is the GUID of the
      j-th record built. */
  function LoadV1(file: Result<seq<string>>, freshId: nat -> string): Result<seq<GolfBallV1>>
  {
    if file.Err? then Err(file.message)
    else if file.value == [] then Err(IndexOutOfRangeMessage)
    else
      var lines := file.value;
      match MapAll(lines[1..], ParseRow)
      case Err(e) => Err(e)
      case Ok(rows) => Ok(WithIdsV1(rows, freshId))
  }

  /** What the V1 loader yields: nothing from an unreadable or empty file;
      otherwise one record per line after the header, in file order, with a
      fresh id, or the exception of the first line that does not parse. */
  lemma LoadV1Meaning(file: Result<seq<string>>, freshId: nat -> string)
    ensures file.Err? ==> LoadV1(file, freshId) == Err(file.message)
    ensures file == Ok([]) ==> LoadV1(file, freshId) == Err(IndexOutOfRangeMessage)
    ensures file.Ok? && file.value != [] ==>
              (LoadV1(file, freshId).Ok? <==> forall i :: 1 <= i < |file.value| ==> ParseRow(file.value[i]).Ok?)
    ensures LoadV1(file, freshId).Ok? ==> file.Ok? && |LoadV1(file, freshId).value| == |file.value| - 1
    ensures LoadV1(file, freshId).Ok? ==> forall j :: 0 <= j < |LoadV1(file, freshId).value| ==>
              LoadV1(file, freshId).value[j] == ToV1(ParseRow(file.value[j + 1]).value, freshId(j))
    ensures LoadV1(file, freshId).Err? && file.Ok? && file.value != [] ==>
              exists i :: 1 <= i < |file.value| && ParseRow(file.value[i]) == Err(LoadV1(file, freshId).message)
                          && forall k :: 1 <= k < i ==> ParseRow(file.value[k]).Ok?
  {
    if file.Ok? && file.value != [] {
      var lines := file.value;
      MapAllMeaning(lines[1..], ParseRow);
      assert forall k :: 0 <= k < |lines| - 1 ==> lines[1..][k] == lines[k + 1];
    }
  }

  /** What the V2 loader yields; the same rows as `LoadV1`, as V2 records. */
  function LoadV2(file: Result<seq<string>>, freshId: nat -> string): Result<seq<GolfBallV2>>
  {
    if file.Err? then Err(file.message)
    else if file.value == [] then Err(IndexOutOfRangeMessage)
    else
      var lines := file.value;
      match MapAll(lines[1..], ParseRow)
      case Err(e) => Err(e)
      case Ok(rows) => Ok(WithIdsV2(rows, freshId))
  }

  /** What the V2 loader yields: nothing from an unreadable or empty file;
      otherwise one record per line after the header, in file order, with a
      fresh id, or the exception of the first line that does not parse. */
  lemma LoadV2Meaning(file: Result<seq<string>>, freshId: nat -> string)
    ensures file.Err? ==> LoadV2(file, freshId) == Err(file.message)
    ensures file == Ok([]) ==> LoadV2(file, freshId) == Err(IndexOutOfRangeMessage)
    ensures file.Ok? && file.value != [] ==>
              (LoadV2(file, freshId).Ok? <==> forall i :: 1 <= i < |file.value| ==> ParseRow(file.value[i]).Ok?)
    ensures LoadV2(file, freshId).Ok? ==> file.Ok? && |LoadV2(file, freshId).value| == |file.value| - 1
    ensures LoadV2(file, freshId).Ok? ==> forall j :: 0 <= j < |LoadV2(file, freshId).value| ==>
              LoadV2(file, freshId).value[j] == ToV2(ParseRow(file.value[j + 1]).value, freshId(j))
    ensures LoadV2(file, freshId).Err? && file.Ok? && file.value != [] ==>
              exists i :: 1 <= i < |file.value| && ParseRow(file.value[i]) == Err(LoadV2(file, freshId).message)
                          && forall k :: 1 <= k < i ==> ParseRow(file.value[k]).Ok?
  {
    if file.Ok? && file.value != [] {
      var lines := file.value;
      MapAllMeaning(lines[1..], ParseRow);
      assert forall k :: 0 <= k < |lines| - 1 ==> lines[1..][k] == lines[k + 1];
    }
  }

  /** A file holding only its header loads as an empty list. */
  lemma HeaderOnlyLoadsEmpty(header: string, freshId: nat -> string)
    ensures LoadV1(Ok([header]), freshId) == Ok([])
    ensures LoadV2(Ok([header]), freshId) == Ok([])
  {
    assert [header][1..] == [];
  }

  lemma LoadV1Lines(lines: seq<string>, freshId: nat -> string)
    requires lines != []
    ensures MapAll(lines[1..], ParseRow).Err? ==> LoadV1(Ok(lines), freshId) == Err(MapAll(lines[1..], ParseRow).message)
    ensures MapAll(lines[1..], ParseRow).Ok? ==>
              LoadV1(Ok(lines), freshId) == Ok(WithIdsV1(MapAll(lines[1..], ParseRow).value, freshId))
  {
  }

  /** One iteration of the V1 loader's loop, after the lines before `i`
      parsed into `rows`. */
  lemma LoadV1Step(lines: seq<string>, i: int, rows: seq<Row>, freshId: nat -> string)
    requires 1 <= i < |lines| && |rows| == i - 1
    requires MapAll(lines[1..i], ParseRow) == Ok(rows)
    ensures ParseRow(lines[i]).Err? ==> LoadV1(Ok(lines), freshId) == Err(ParseRow(lines[i]).message)
    ensures ParseRow(lines[i]).Ok? ==>
      && MapAll(lines[1..i + 1], ParseRow) == Ok(rows + [ParseRow(lines[i]).value])
      && WithIdsV1(rows + [ParseRow(lines[i]).value], freshId)
         == WithIdsV1(rows, freshId) + [ToV1(ParseRow(lines[i]).value, freshId(i - 1))]
  {
    MapAllTailStep(lines, i, rows, ParseRow);
    LoadV1Lines(lines, freshId);
    if ParseRow(lines[i]).Ok? {
      WithIdsV1Snoc(rows, ParseRow(lines[i]).value, freshId);
    }
  }

  lemma LoadV1End(lines: seq<string>, rows: seq<Row>, freshId: nat -> string)
    requires lines != [] && MapAll(lines[1..|lines|], ParseRow) == Ok(rows)
    ensures LoadV1(Ok(lines), freshId) == Ok(WithIdsV1(rows, freshId))
  {
    assert lines[1..|lines|] == lines[1..];
    LoadV1Lines(lines, freshId);
  }

  lemma WithIdsV1Snoc(rows: seq<Row>, row: Row, freshId: nat -> string)
    ensures WithIdsV1(rows + [row], freshId) == WithIdsV1(rows, freshId) + [ToV1(row, freshId(|rows|))]
  {
    assert (rows + [row])[|rows|] == row;
  }

  lemma LoadV2Lines(lines: seq<string>, freshId: nat -> string)
    requires lines != []
    ensures MapAll(lines[1..], ParseRow).Err? ==> LoadV2(Ok(lines), freshId) == Err(MapAll(lines[1..], ParseRow).message)
    ensures MapAll(lines[1..], ParseRow).Ok? ==>
              LoadV2(Ok(lines), freshId) == Ok(WithIdsV2(MapAll(lines[1..], ParseRow).value, freshId))
  {
  }

  /** One iteration of the V2 loader's loop, after the lines before `i`
      parsed into `rows`. */
  lemma LoadV2Step(lines: seq<string>, i: int, rows: seq<Row>, freshId: nat -> string)
    requires 1 <= i < |lines| && |rows| == i - 1
    requires MapAll(lines[1..i], ParseRow) == Ok(rows)
    ensures ParseRow(lines[i]).Err? ==> LoadV2(Ok(lines), freshId) == Err(ParseRow(lines[i]).message)
    ensures ParseRow(lines[i]).Ok? ==>
      && MapAll(lines[1..i + 1], ParseRow) == Ok(rows + [ParseRow(lines[i]).value])
      && WithIdsV2(rows + [ParseRow(lines[i]).value], freshId)
         == WithIdsV2(rows, freshId) + [ToV2(ParseRow(lines[i]).value, freshId(i - 1))]
  {
    MapAllTailStep(lines, i, rows, ParseRow);
    LoadV2Lines(lines, freshId);
    if ParseRow(lines[i]).Ok? {
      WithIdsV2Snoc(rows, ParseRow(lines[i]).value, freshId);
    }
  }

  lemma LoadV2End(lines: seq<string>, rows: seq<Row>, freshId: nat -> string)
    requires lines != [] && MapAll(lines[1..|lines|], ParseRow) == Ok(rows)
    ensures LoadV2(Ok(lines), freshId) == Ok(WithIdsV2(rows, freshId))
  {
    assert lines[1..|lines|] == lines[1..];
    LoadV2Lines(lines, freshId);
  }

  lemma WithIdsV2Snoc(rows: seq<Row>, row: Row, freshId: nat -> string)
    ensures WithIdsV2(rows + [row], freshId) == WithIdsV2(rows, freshId) + [ToV2(row, freshId(|rows|))]
  {
    assert (rows + [row])[|rows|] == row;
  }

  /** `LoadGolfBallsFromCsvAsyncV1`: the loop over `lines[1..]`. */
  method LoadGolfBallsV1(file: Result<seq<string>>, freshId: nat -> string) returns (r: Result<seq<GolfBallV1>>)
    ensures r == LoadV1(file, freshId)
  {
    if file.Err? {
      return Err(file.message);
    }
    var lines := file.value;
    if |lines| == 0 {
      return Err(IndexOutOfRangeMessage);
    }
    var golfBalls: seq<GolfBallV1> := [];
    ghost var rows: seq<Row> := [];
    var i := 1;
    while i < |lines|
      invariant 1 <= i <= |lines|
      invariant |rows| == i - 1
      invariant MapAll(lines[1..i], ParseRow) == Ok(rows)
      invariant golfBalls == WithIdsV1(rows, freshId)
    {
      var values := ParseRow(lines[i]);
      LoadV1Step(lines, i, rows, freshId);
      if values.Err? {
        return Err(values.message);
      }
      golfBalls := golfBalls + [ToV1(values.value, freshId(i - 1))];
      rows := rows + [values.value];
      i := i + 1;
    }
    LoadV1End(lines, rows, freshId);
    return Ok(golfBalls);
  }

  /** `LoadGolfBallsFromCsvAsyncV2`: the same loop building V2 records. */
  method LoadGolfBallsV2(file: Result<seq<string>>, freshId: nat -> string) returns (r: Result<seq<GolfBallV2>>)
    ensures r == LoadV2(file, freshId)
  {
    if file.Err? {
      return Err(file.message);
    }
    var lines := file.value;
    if |lines| == 0 {
      return Err(IndexOutOfRangeMessage);
    }
    var golfBalls: seq<GolfBallV2> := [];
    ghost var rows: seq<Row> := [];
    var i := 1;
    while i < |lines|
      invariant 1 <= i <= |lines|
      invariant |rows| == i - 1
      invariant MapAll(lines[1..i], ParseRow) == Ok(rows)
      invariant golfBalls == WithIdsV2(rows, freshId)
    {
      var values := ParseRow(lines[i]);
      LoadV2Step(lines, i, rows, freshId);
      if values.Err? {
        return Err(values.message);
      }
      golfBalls := golfBalls + [ToV2(values.value, freshId(i - 1))];
      rows := rows + [values.value];
      i := i + 1;
    }
    LoadV2End(lines, rows, freshId);
    return Ok(golfBalls);
  }
}
