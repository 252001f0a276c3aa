/** The failure log of the multi-modal upload: the text of one entry
    (`WriteFailedRowsToLogAsync`) and the file path it is written to,
    `Path.Combine(Path.GetDirectoryName(...), "failed_rows.log")`, with the
    .NET path functions as they behave on Unix ('/' the only separator). */
module FailureLog {
  import opened Wrappers
  import opened DotNetText
  import opened GolfBallData

  /** A row whose processing threw, with the exception's message. */
  datatype FailedRow = FailedRow(ball: GolfBallV2, error: string)

  // ---------------------------------------------------------------------------
  // Entry text
  // ---------------------------------------------------------------------------

  function Repeat(c: char, n: nat): (r: string)
    ensures |r| == n && forall i :: 0 <= i < n ==> r[i] == c
  {
    if n == 0 then [] else Repeat(c, n - 1) + [c]
  }

  /** The line closing every entry: forty '-'. */
  const Rule: string := Repeat('-', 40)

  /** The lines of one entry; `time` is `DateTime.UtcNow` already formatted
      as "yyyy-MM-dd HH:mm:ss UTC". */
  function EntryLines(f: FailedRow, time: string): (ls: seq<string>)
    ensures |ls| == 8
  {
    ["Time: " + time, "Golf Ball Details:", "  Manufacturer: " + f.ball.manufacturer,
     "  Pole Marking: " + f.ball.poleMarking, "  Color: " + f.ball.colour,
     "  Seam Marking: " + f.ball.seamMarking, "Error: " + f.error, Rule]
  }

  /** One entry: its lines, each ended by '\n', the last included. */
  function LogEntry(f: FailedRow, time: string): string {
    Lines(EntryLines(f, time))
  }

  predicate SingleLine(s: string) { '\n' !in s }

  /** Lines written one after the other, each ended by '\n'. */
  function Lines(ls: seq<string>): string {
    if ls == [] then "" else ls[0] + "\n" + Lines(ls[1..])
  }

  lemma {:induction false} SplitLines(ls: seq<string>)
    requires forall i :: 0 <= i < |ls| ==> SingleLine(ls[i])
    ensures Split(Lines(ls), '\n') == ls + [""]
    decreases |ls|
  {
    if ls != [] {
      SplitLines(ls[1..]);
      SplitPrefix(ls[0], '\n', Lines(ls[1..]));
      assert Lines(ls) == ls[0] + ['\n'] + Lines(ls[1..]);
      assert [ls[0]] + (ls[1..] + [""]) == ls + [""];
    } else {
      assert Lines(ls) == [];
      assert Split([], '\n') == [[]];
    }
  }

  lemma LabelledLine(caption: string, value: string)
    requires SingleLine(caption) && SingleLine(value)
    ensures SingleLine(caption + value)
  {
    assert forall c :: c in caption + value ==> c in caption || c in value;
  }

  /** Read back line by line, an entry gives the timestamp, the four fields
      of the ball, the error and the rule, each on its own line, provided none
      of them spans lines. */
  lemma LogEntryLines(f: FailedRow, time: string)
    requires SingleLine(time) && SingleLine(f.error)
    requires SingleLine(f.ball.manufacturer) && SingleLine(f.ball.poleMarking)
    requires SingleLine(f.ball.colour) && SingleLine(f.ball.seamMarking)
    ensures Split(LogEntry(f, time), '\n') == EntryLines(f, time) + [""]
  {
    EntryLinesSingle(f, time);
    SplitLines(EntryLines(f, time));
  }

  lemma EntryLinesSingle(f: FailedRow, time: string)
    requires SingleLine(time) && SingleLine(f.error)
    requires SingleLine(f.ball.manufacturer) && SingleLine(f.ball.poleMarking)
    requires SingleLine(f.ball.colour) && SingleLine(f.ball.seamMarking)
    ensures forall i :: 0 <= i < |EntryLines(f, time)| ==> SingleLine(EntryLines(f, time)[i])
  {
    LabelledLine("Time: ", time);
    LabelledLine("  Manufacturer: ", f.ball.manufacturer);
    LabelledLine("  Pole Marking: ", f.ball.poleMarking);
    LabelledLine("  Color: ", f.ball.colour);
    LabelledLine("  Seam Marking: ", f.ball.seamMarking);
    LabelledLine("Error: ", f.error);
    assert SingleLine("Golf Ball Details:");
    assert SingleLine(Rule);
    var l := EntryLines(f, time);
    EightSingleLines(l[0], l[1], l[2], l[3], l[4], l[5], l[6], l[7]);
    assert l == [l[0], l[1], l[2], l[3], l[4], l[5], l[6], l[7]];
  }

  lemma EightSingleLines(a: string, b: string, c: string, d: string, e: string, f: string, g: string, h: string)
    requires SingleLine(a) && SingleLine(b) && SingleLine(c) && SingleLine(d)
    requires SingleLine(e) && SingleLine(f) && SingleLine(g) && SingleLine(h)
    ensures forall i :: 0 <= i < 8 ==> SingleLine([a, b, c, d, e, f, g, h][i])
  {
  }

  /** The `Select` over `failedRows`: one entry per failed row, in order;
      `clock(i)` is the time read while the i-th entry is formatted. */
  function LogEntries(failed: seq<FailedRow>, clock: nat -> string): (entries: seq<string>)
    ensures |entries| == |failed|
    ensures forall i :: 0 <= i < |failed| ==> entries[i] == LogEntry(failed[i], clock(i))
  {
    seq(|failed|, i requires 0 <= i < |failed| => LogEntry(failed[i], clock(i)))
  }

  // ---------------------------------------------------------------------------
  // Path.GetDirectoryName and Path.Combine (Unix)
  // ---------------------------------------------------------------------------

  const LogFileName: string := "failed_rows.log"

  function ArgumentNullMessage(parameter: string): string {
    "Value cannot be null. (Parameter '" + parameter + "')"
  }

  predicate IsSeparator(c: char) { c == '/' }

  function RootLength(path: string): (n: nat)
    ensures n <= |path|
  {
    if path != [] && IsSeparator(path[0]) then 1 else 0
  }

  /** The backwards scan for the last separator at or after the root:
      its index, or the root length when there is none. */
  function LastSeparator(path: string, root: nat, end: nat): (k: nat)
    requires root <= end <= |path|
    ensures root <= k <= end
    ensures k == root || (k < end && IsSeparator(path[k]))
    ensures forall i :: k < i < end ==> !IsSeparator(path[i])
    decreases end
  {
    if end <= root then end
    else if IsSeparator(path[end - 1]) then end - 1
    else LastSeparator(path, root, end - 1)
  }

  /** Drops the separators just before `end`, but never into the root. */
  function TrimSeparators(path: string, root: nat, end: nat): (k: nat)
    requires root <= end <= |path|
    ensures root <= k <= end
    ensures forall i :: k <= i < end ==> IsSeparator(path[i])
    ensures k == root || !IsSeparator(path[k - 1])
    decreases end
  {
    if end > root && IsSeparator(path[end - 1]) then TrimSeparators(path, root, end - 1) else end
  }

  /** `NormalizeDirectorySeparators`: a separator followed by another is dropped. */
  function CollapseSeparators(s: string): (r: string)
    ensures |r| <= |s|
    decreases |s|
  {
    if |s| <= 1 then s
    else if IsSeparator(s[0]) && IsSeparator(s[1]) then CollapseSeparators(s[1..])
    else [s[0]] + CollapseSeparators(s[1..])
  }

  predicate NoDoubleSeparator(s: string) {
    forall i :: 0 <= i < |s| - 1 ==> !(IsSeparator(s[i]) && IsSeparator(s[i + 1]))
  }

  lemma {:induction false} CollapseKeeps(s: string)
    requires NoDoubleSeparator(s)
    ensures CollapseSeparators(s) == s
    decreases |s|
  {
    if |s| > 1 {
      assert NoDoubleSeparator(s[1..]) by {
        forall i | 0 <= i < |s[1..]| - 1
          ensures !(IsSeparator(s[1..][i]) && IsSeparator(s[1..][i + 1]))
        {
          assert s[1..][i] == s[i + 1] && s[1..][i + 1] == s[i + 2];
        }
      }
      CollapseKeeps(s[1..]);
      assert [s[0]] + s[1..] == s;
    }
  }

  /** `Path.GetDirectoryName(path)`: `None` is the null it returns for an
      empty path or a bare root. */
  function DirectoryName(path: string): (r: Option<string>)
    ensures r.None? <==> path == [] || |path| <= RootLength(path)
    ensures r.Some? ==> |r.value| < |path|
  {
    if path == [] then None
    else
      var root := RootLength(path);
      if |path| <= root then None
      else
        var end := TrimSeparators(path, root, LastSeparator(path, root, |path|));
        Some(CollapseSeparators(path[..end]))
  }

  /** `Path.Combine(path1, path2)`: a null first argument throws. */
  function Combine(path1: Option<string>, path2: string): (r: Result<string>)
    ensures path1.None? <==> r.Err?
    ensures r.Err? ==> r.message == ArgumentNullMessage("path1")
  {
    match path1
    case None => Err(ArgumentNullMessage("path1"))
    case Some(p1) =>
      if path2 == [] then Ok(p1)
      else if p1 == [] then Ok(path2)
      else if IsSeparator(path2[0]) then Ok(path2)
      else if IsSeparator(p1[|p1| - 1]) then Ok(p1 + path2)
      else Ok(p1 + "/" + path2)
  }

  /** The log path derived from a file path: "failed_rows.log" in the
      directory holding that file. */
  function FailureLogPath(source: string): (r: Result<string>)
    ensures r.Err? <==> DirectoryName(source).None?
  {
    Combine(DirectoryName(source), LogFileName)
  }

  /** `_csvFileName`: declared `String.Empty` and never assigned. */
  const CsvFileNameField: string := ""

  /** The path as the upload derives it, from `_csvFileName`: it always throws. */
  lemma LogPathFromFileNameFieldThrows()
    ensures FailureLogPath(CsvFileNameField) == Err(ArgumentNullMessage("path1"))
  {
  }

  lemma {:induction false} LastSeparatorIs(path: string, root: nat, end: nat, k: nat)
    requires root <= k < end <= |path|
    requires IsSeparator(path[k])
    requires forall i :: k < i < end ==> !IsSeparator(path[i])
    ensures LastSeparator(path, root, end) == k
    decreases end
  {
    if end - 1 != k {
      LastSeparatorIs(path, root, end - 1, k);
    }
  }

  lemma {:induction false} NoSeparatorFromRoot(path: string, root: nat, end: nat)
    requires root <= end <= |path|
    requires forall i :: root <= i < end ==> !IsSeparator(path[i])
    ensures LastSeparator(path, root, end) == root
    decreases end
  {
    if end > root {
      NoSeparatorFromRoot(path, root, end - 1);
    }
  }

  /** Derived from the CSV file's own path, the log lands beside that file. */
  lemma LogPathBesideCsvFile(directory: string, name: string)
    requires directory != [] && !IsSeparator(directory[|directory| - 1])
    requires NoDoubleSeparator(directory)
    requires forall i :: 0 <= i < |name| ==> !IsSeparator(name[i])
    ensures FailureLogPath(directory + "/" + name) == Ok(directory + "/" + LogFileName)
  {
    var path := directory + "/" + name;
    var root := RootLength(path);
    assert root == RootLength(directory);
    var n := |directory|;
    assert root < n by {
      if n == 1 {
        assert !IsSeparator(directory[0]);
      }
    }
    forall i | n < i < |path|
      ensures !IsSeparator(path[i])
    {
      assert path[i] == name[i - n - 1];
    }
    LastSeparatorIs(path, root, |path|, n);
    assert path[n - 1] == directory[n - 1];
    assert TrimSeparators(path, root, n) == n;
    assert path[..n] == directory;
    CollapseKeeps(directory);
    assert DirectoryName(path) == Some(directory);
  }

  /** A bare file name has an empty directory: the log goes in the working
      directory. */
  lemma LogPathForBareFileName(name: string)
    requires name != []
    requires forall i :: 0 <= i < |name| ==> !IsSeparator(name[i])
    ensures FailureLogPath(name) == Ok(LogFileName)
  {
    assert RootLength(name) == 0;
    NoSeparatorFromRoot(name, 0, |name|);
    assert TrimSeparators(name, 0, 0) == 0;
    assert DirectoryName(name) == Some([]);
  }
}
