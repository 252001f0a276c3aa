/** The pieces of the .NET runtime's string handling that the ingestion and
    search code rely on: `String.Split(char)`, `Int32.Parse` with the default
    `NumberStyles.Integer`, `Int32.ToString()` and `String.TrimEnd(char)`.
    Exception messages are the runtime's English wording. */
module DotNetText {
  import opened Wrappers

  const Int32Min: int := -0x8000_0000
  const Int32Max: int := 0x7FFF_FFFF

  predicate InInt32Range(n: int) { Int32Min <= n <= Int32Max }

  // ---------------------------------------------------------------------------
  // String.Split(sep) and its inverse String.Join(sep, parts)
  // ---------------------------------------------------------------------------

  /** `s.Split(sep)`: the pieces between separators, empty pieces kept. */
  function Split(s: string, sep: char): (parts: seq<string>)
    ensures |parts| >= 1
    ensures forall i :: 0 <= i < |parts| ==> sep !in parts[i]
    decreases |s|
  {
    if s == [] then [[]]
    else
      var rest := Split(s[1..], sep);
      if s[0] == sep then [[]] + rest
      else [[s[0]] + rest[0]] + rest[1..]
  }

  /** `String.Join(sep, parts)` for a non-empty list of pieces. */
  function Join(parts: seq<string>, sep: char): string
    requires |parts| >= 1
  {
    if |parts| == 1 then parts[0] else parts[0] + [sep] + Join(parts[1..], sep)
  }

  /** Joining the pieces of a split gives back the original string. */
  lemma {:induction false} JoinSplit(s: string, sep: char)
    ensures Join(Split(s, sep), sep) == s
    decreases |s|
  {
    if s != [] {
      JoinSplit(s[1..], sep);
      var rest := Split(s[1..], sep);
      if s[0] != sep {
        var parts := Split(s, sep);
        assert parts[1..] == rest[1..];
        if |rest| == 1 {
          assert Join(parts, sep) == [s[0]] + rest[0];
        } else {
          assert Join(rest, sep) == rest[0] + [sep] + Join(rest[1..], sep);
          assert Join(parts, sep) == [s[0]] + rest[0] + [sep] + Join(rest[1..], sep);
        }
      } else {
        assert Split(s, sep)[1..] == rest;
      }
    }
  }

  /** A leading piece free of separators splits off whole. */
  lemma {:induction false} SplitPrefix(a: string, sep: char, b: string)
    requires sep !in a
    ensures Split(a + [sep] + b, sep) == [a] + Split(b, sep)
    decreases |a|
  {
    if a == [] {
      assert a + [sep] + b == [sep] + b;
      assert ([sep] + b)[1..] == b;
    } else {
      SplitPrefix(a[1..], sep, b);
      assert (a + [sep] + b)[1..] == a[1..] + [sep] + b;
      assert [a[0]] + a[1..] == a;
    }
  }

  /** How `Split` treats the first character. */
  lemma SplitCons(c: char, s: string, sep: char)
    ensures Split([c] + s, sep) ==
      if c == sep then [[]] + Split(s, sep) else [[c] + Split(s, sep)[0]] + Split(s, sep)[1..]
  {
    assert ([c] + s)[0] == c;
    assert ([c] + s)[1..] == s;
  }

  /** Splitting at one separator: the pieces of each side, side by side. */
  lemma {:induction false} SplitConcat(a: string, sep: char, b: string)
    ensures Split(a + [sep] + b, sep) == Split(a, sep) + Split(b, sep)
    decreases |a|
  {
    if a == [] {
      assert a + [sep] + b == [sep] + b;
      SplitCons(sep, b, sep);
    } else {
      SplitConcat(a[1..], sep, b);
      assert a == [a[0]] + a[1..];
      assert a + [sep] + b == [a[0]] + (a[1..] + [sep] + b);
      SplitConsStep(a[0], a[1..], sep, b);
    }
  }

  lemma SplitConsStep(c: char, t: string, sep: char, b: string)
    requires Split(t + [sep] + b, sep) == Split(t, sep) + Split(b, sep)
    ensures Split([c] + (t + [sep] + b), sep) == Split([c] + t, sep) + Split(b, sep)
  {
    var left, right := Split(t, sep), Split(b, sep);
    SplitCons(c, t + [sep] + b, sep);
    SplitCons(c, t, sep);
    if c == sep {
      ConsPiece([], left, right);
    } else {
      ExtendFirstPiece([c], left, right);
    }
  }

  lemma ConsPiece(h: string, left: seq<string>, right: seq<string>)
    ensures [h] + (left + right) == ([h] + left) + right
  {
  }

  lemma ExtendFirstPiece(h: string, left: seq<string>, right: seq<string>)
    requires |left| >= 1
    ensures [h + (left + right)[0]] + (left + right)[1..] == ([h + left[0]] + left[1..]) + right
  {
    assert (left + right)[0] == left[0];
    assert (left + right)[1..] == left[1..] + right;
  }

  /** A string free of separators is a single piece. */
  lemma {:induction false} SplitNoSeparator(a: string, sep: char)
    requires sep !in a
    ensures Split(a, sep) == [a]
    decreases |a|
  {
    if a != [] {
      SplitNoSeparator(a[1..], sep);
      assert [a[0]] + a[1..] == a;
    }
  }

  /** Splitting the join of separator-free pieces gives the pieces back. */
  lemma {:induction false} SplitJoin(parts: seq<string>, sep: char)
    requires |parts| >= 1
    requires forall i :: 0 <= i < |parts| ==> sep !in parts[i]
    ensures Split(Join(parts, sep), sep) == parts
    decreases |parts|
  {
    if |parts| == 1 {
      SplitNoSeparator(parts[0], sep);
    } else {
      SplitJoin(parts[1..], sep);
      SplitPrefix(parts[0], sep, Join(parts[1..], sep));
      assert [parts[0]] + parts[1..] == parts;
    }
  }

  // ---------------------------------------------------------------------------
  // Int32.Parse(s) with NumberStyles.Integer, and Int32.ToString()
  // ---------------------------------------------------------------------------

  /** The white space NumberStyles.AllowLeadingWhite/AllowTrailingWhite accept. */
  predicate IsParseWhite(c: char) { c == ' ' || '\t' <= c <= '\r' }

  predicate IsDigit(c: char) { '0' <= c <= '9' }

  predicate AllDigits(s: string) { forall i :: 0 <= i < |s| ==> IsDigit(s[i]) }

  function TrimStartWhite(s: string): (r: string)
    ensures |r| <= |s| && r == s[|s| - |r|..]
    ensures r == [] || !IsParseWhite(r[0])
    decreases |s|
  {
    if s != [] && IsParseWhite(s[0]) then TrimStartWhite(s[1..]) else s
  }

  function TrimEndWhite(s: string): (r: string)
    ensures |r| <= |s| && r == s[..|r|]
    ensures r == [] || !IsParseWhite(r[|r| - 1])
    decreases |s|
  {
    if s != [] && IsParseWhite(s[|s| - 1]) then TrimEndWhite(s[..|s| - 1]) else s
  }

  function DigitValue(c: char): nat
    requires IsDigit(c)
  {
    (c - '0') as nat
  }

  /** The value of a string of decimal digits, most significant first. */
  function DigitsValue(s: string): nat
    requires AllDigits(s)
  {
    if s == [] then 0 else DigitsValue(s[..|s| - 1]) * 10 + DigitValue(s[|s| - 1])
  }

  function FormatMessage(s: string): string {
    "The input string '" + s + "' was not in a correct format."
  }

  const OverflowMessage: string := "Value was either too large or too small for an Int32."

  /** `int.Parse(s)`: optional surrounding white space, an optional `+` or `-`,
      then one or more decimal digits whose value must fit in 32 bits. */
  function ParseInt32(s: string): (r: Result<int>)
    ensures r.Ok? ==> InInt32Range(r.value)
    ensures r.Err? ==> r.message == FormatMessage(s) || r.message == OverflowMessage
  {
    ParseToken(s, TrimEndWhite(TrimStartWhite(s)))
  }

  /** `int.Parse(s)` once the white space around `s` is gone, leaving `t`. */
  function ParseToken(s: string, t: string): (r: Result<int>)
    ensures r.Ok? ==> InInt32Range(r.value)
    ensures r.Err? ==> r.message == FormatMessage(s) || r.message == OverflowMessage
  {
    if t == [] then Err(FormatMessage(s))
    else
      var negative := t[0] == '-';
      var digits := if t[0] == '-' || t[0] == '+' then t[1..] else t;
      if digits == [] || !AllDigits(digits) then Err(FormatMessage(s))
      else
        var v := if negative then -(DigitsValue(digits) as int) else DigitsValue(digits) as int;
        if InInt32Range(v) then Ok(v) else Err(OverflowMessage)
  }

  function DigitChar(d: nat): (c: char)
    requires d < 10
    ensures IsDigit(c) && DigitValue(c) == d
  {
    ('0' as int + d) as char
  }

  /** Decimal digits of a natural number, no leading zeros. */
  function NatToString(n: nat): (s: string)
    ensures |s| >= 1 && AllDigits(s)
  {
    if n < 10 then [DigitChar(n)] else NatToString(n / 10) + [DigitChar(n % 10)]
  }

  /** `n.ToString()` in the invariant culture. */
  function IntToString(n: int): (s: string)
    ensures |s| >= 1
  {
    if n < 0 then "-" + NatToString(-n) else NatToString(n)
  }

  lemma {:induction false} DigitsValueOfNatToString(n: nat)
    ensures DigitsValue(NatToString(n)) == n
  {
    if n >= 10 {
      DigitsValueOfNatToString(n / 10);
      var s := NatToString(n);
      assert s[..|s| - 1] == NatToString(n / 10);
    }
  }

  /** `int.Parse(n.ToString()) == n` for every 32-bit integer. */
  lemma ParseIntToString(n: int)
    requires InInt32Range(n)
    ensures ParseInt32(IntToString(n)) == Ok(n)
  {
    var s := IntToString(n);
    var m: nat := if n < 0 then -n else n;
    var digits := NatToString(m);
    DigitsValueOfNatToString(m);
    assert !IsParseWhite(s[0]) && !IsParseWhite(s[|s| - 1]);
    assert TrimStartWhite(s) == s;
    assert TrimEndWhite(s) == s;
    if n < 0 {
      assert s[1..] == digits;
    } else {
      assert s[0] != '-' && s[0] != '+';
    }
  }

  // --- which strings `int.Parse` accepts -----------------------------------------

  predicate AllWhite(s: string) { forall i :: 0 <= i < |s| ==> IsParseWhite(s[i]) }

  /** An optional `+` or `-` followed by one or more decimal digits. */
  predicate IsSignedDigits(t: string) {
    if t != [] && (t[0] == '+' || t[0] == '-') then t[1..] != [] && AllDigits(t[1..])
    else t != [] && AllDigits(t)
  }

  function SignedValue(t: string): int
    requires IsSignedDigits(t)
  {
    if t[0] == '-' then -(DigitsValue(t[1..]) as int)
    else if t[0] == '+' then DigitsValue(t[1..]) as int
    else DigitsValue(t) as int
  }

  /** `s` is white space, then a signed digit string worth `v`, then white
      space: the shape `NumberStyles.Integer` admits, leading zeros included. */
  ghost predicate IsIntegerText(s: string, v: int) {
    exists i, j :: 0 <= i < j <= |s| && AllWhite(s[..i]) && AllWhite(s[j..])
                   && IsSignedDigits(s[i..j]) && SignedValue(s[i..j]) == v
  }

  lemma {:induction false} TrimStartWhiteSkips(w: string, t: string)
    requires AllWhite(w)
    requires t == [] || !IsParseWhite(t[0])
    ensures TrimStartWhite(w + t) == t
    decreases |w|
  {
    if w == [] {
      assert w + t == t;
    } else {
      assert (w + t)[1..] == w[1..] + t;
      TrimStartWhiteSkips(w[1..], t);
    }
  }

  lemma {:induction false} TrimEndWhiteSkips(t: string, w: string)
    requires AllWhite(w)
    requires t == [] || !IsParseWhite(t[|t| - 1])
    ensures TrimEndWhite(t + w) == t
    decreases |w|
  {
    if w == [] {
      assert t + w == t;
    } else {
      assert (t + w)[..|t + w| - 1] == t + w[..|w| - 1];
      TrimEndWhiteSkips(t, w[..|w| - 1]);
    }
  }

  /** `TrimStartWhite` removes white space only. */
  lemma {:induction false} TrimStartDropsWhite(s: string)
    ensures AllWhite(s[..|s| - |TrimStartWhite(s)|])
    decreases |s|
  {
    if s != [] && IsParseWhite(s[0]) {
      TrimStartDropsWhite(s[1..]);
      var k := |s[1..]| - |TrimStartWhite(s[1..])|;
      assert s[..k + 1] == [s[0]] + s[1..][..k];
    }
  }

  /** `TrimEndWhite` removes white space only. */
  lemma {:induction false} TrimEndDropsWhite(s: string)
    ensures AllWhite(s[|TrimEndWhite(s)|..])
    decreases |s|
  {
    if s != [] && IsParseWhite(s[|s| - 1]) {
      var init := s[..|s| - 1];
      TrimEndDropsWhite(init);
      var k := |TrimEndWhite(init)|;
      assert s[k..] == init[k..] + [s[|s| - 1]];
    }
  }

  /** Trimming white space around a signed digit string leaves exactly it. */
  lemma TrimAroundSignedDigits(w1: string, core: string, w2: string)
    requires AllWhite(w1) && AllWhite(w2) && IsSignedDigits(core)
    ensures TrimEndWhite(TrimStartWhite(w1 + core + w2)) == core
  {
    assert w1 + core + w2 == w1 + (core + w2);
    TrimStartWhiteSkips(w1, core + w2);
    assert IsDigit(core[|core| - 1]) by {
      if core[0] == '+' || core[0] == '-' {
        assert core[|core| - 1] == core[1..][|core| - 2];
      }
    }
    TrimEndWhiteSkips(core, w2);
  }

  /** White space around a signed digit string makes an integer text. */
  lemma IntegerTextOfPieces(w1: string, core: string, w2: string)
    requires AllWhite(w1) && AllWhite(w2) && IsSignedDigits(core)
    ensures IsIntegerText(w1 + core + w2, SignedValue(core))
  {
    var s := w1 + core + w2;
    var i, j := |w1|, |w1| + |core|;
    assert s[..i] == w1 && s[i..j] == core && s[j..] == w2;
  }

  /** Every integer text parses: to its value when that fits in 32 bits,
      otherwise to the overflow exception. Leading and trailing white space,
      a `+` sign and leading zeros are all accepted. */
  lemma ParseIntegerText(s: string, v: int)
    requires IsIntegerText(s, v)
    ensures ParseInt32(s) == if InInt32Range(v) then Ok(v) else Err(OverflowMessage)
  {
    var i, j :| 0 <= i < j <= |s| && AllWhite(s[..i]) && AllWhite(s[j..])
                && IsSignedDigits(s[i..j]) && SignedValue(s[i..j]) == v;
    assert s == s[..i] + s[i..j] + s[j..];
    TrimAroundSignedDigits(s[..i], s[i..j], s[j..]);
    ParseSignedDigits(s);
  }

  /** `int.Parse` on a string whose trimmed text is a signed digit string. */
  lemma ParseSignedDigits(s: string)
    requires IsSignedDigits(TrimEndWhite(TrimStartWhite(s)))
    ensures var v := SignedValue(TrimEndWhite(TrimStartWhite(s)));
            ParseInt32(s) == if InInt32Range(v) then Ok(v) else Err(OverflowMessage)
  {
    ParseTokenSignedDigits(s, TrimEndWhite(TrimStartWhite(s)));
  }

  lemma ParseTokenSignedDigits(s: string, t: string)
    requires IsSignedDigits(t)
    ensures ParseToken(s, t) == if InInt32Range(SignedValue(t)) then Ok(SignedValue(t)) else Err(OverflowMessage)
  {
    var digits := if t[0] == '-' || t[0] == '+' then t[1..] else t;
    assert digits != [] && AllDigits(digits);
  }

  /** When the trimmed text is a signed digit string, the input is an
      integer text of that value. */
  lemma TrimmedIsIntegerText(s: string)
    ensures var t := TrimEndWhite(TrimStartWhite(s));
            IsSignedDigits(t) ==> IsIntegerText(s, SignedValue(t))
  {
    var start := TrimStartWhite(s);
    var t := TrimEndWhite(start);
    if IsSignedDigits(t) {
      TrimStartDropsWhite(s);
      TrimEndDropsWhite(start);
      IntegerTextFromPieces(s, start, t);
    }
  }

  /** White space, then `t`, then white space: `s` split by a suffix `start`
      of it and a prefix `t` of that suffix. */
  lemma IntegerTextFromPieces(s: string, start: string, t: string)
    requires |start| <= |s| && start == s[|s| - |start|..] && AllWhite(s[..|s| - |start|])
    requires |t| <= |start| && t == start[..|t|] && AllWhite(start[|t|..])
    requires IsSignedDigits(t)
    ensures IsIntegerText(s, SignedValue(t))
  {
    var i := |s| - |start|;
    var j := i + |t|;
    SuffixSlices(s, i, |t|);
    assert s[i..j] == t && s[j..] == start[|t|..];
  }

  lemma SuffixSlices<T>(s: seq<T>, i: nat, k: nat)
    requires i + k <= |s|
    ensures s[i..][..k] == s[i..i + k] && s[i..][k..] == s[i + k..]
  {
  }

  /** Every string that is not an integer text is rejected with the format
      exception, which quotes the input. */
  lemma ParseNonIntegerText(s: string)
    requires forall v :: !IsIntegerText(s, v)
    ensures ParseInt32(s) == Err(FormatMessage(s))
  {
    TrimmedIsIntegerText(s);
  }

  /** An integer text holds only white space, digits and signs. */
  lemma IntegerTextChars(s: string, v: int)
    requires IsIntegerText(s, v)
    ensures forall k :: 0 <= k < |s| ==> IsDigit(s[k]) || IsParseWhite(s[k]) || s[k] == '+' || s[k] == '-'
  {
    var i, j :| 0 <= i < j <= |s| && AllWhite(s[..i]) && AllWhite(s[j..])
                && IsSignedDigits(s[i..j]) && SignedValue(s[i..j]) == v;
    var t := s[i..j];
    forall k | 0 <= k < |s|
      ensures IsDigit(s[k]) || IsParseWhite(s[k]) || s[k] == '+' || s[k] == '-'
    {
      if k < i {
        assert s[..i][k] == s[k];
      } else if k >= j {
        assert s[j..][k - j] == s[k];
      } else if k > i && (t[0] == '+' || t[0] == '-') {
        assert t[1..][k - i - 1] == s[k];
      } else {
        assert t[k - i] == s[k];
      }
    }
  }

  /** A character that is neither white space, a digit nor a sign (a letter,
      a decimal point, an exponent) anywhere in the input makes it throw the
      format exception. */
  lemma ParseRejectsForeignChar(s: string, k: nat)
    requires k < |s| && !IsDigit(s[k]) && !IsParseWhite(s[k]) && s[k] != '+' && s[k] != '-'
    ensures ParseInt32(s) == Err(FormatMessage(s))
  {
    forall v | IsIntegerText(s, v)
      ensures false
    {
      IntegerTextChars(s, v);
    }
    ParseNonIntegerText(s);
  }

  /** A letter, a decimal point or an exponent is rejected. */
  lemma ParseRejectsNonIntegers()
    ensures ParseInt32("15a6").Err? && ParseInt32("1.5").Err? && ParseInt32("1e3").Err?
  {
    ParseRejectsForeignChar("15a6", 2);
    ParseRejectsForeignChar("1.5", 1);
    ParseRejectsForeignChar("1e3", 1);
  }

  /** An integer text holds at least one digit: the last one of its token. */
  lemma IntegerTextHasDigit(s: string, v: int)
    requires IsIntegerText(s, v)
    ensures exists k :: 0 <= k < |s| && IsDigit(s[k])
  {
    var i, j :| 0 <= i < j <= |s| && AllWhite(s[..i]) && AllWhite(s[j..])
                && IsSignedDigits(s[i..j]) && SignedValue(s[i..j]) == v;
    var t := s[i..j];
    assert t[|t| - 1] == s[j - 1];
    if t[0] == '+' || t[0] == '-' {
      assert t[1..][|t| - 2] == s[j - 1];
    }
  }

  /** A value with no decimal digit in it never parses. */
  lemma ParseRejectsDigitFree(s: string)
    requires forall i :: 0 <= i < |s| ==> !IsDigit(s[i])
    ensures ParseInt32(s) == Err(FormatMessage(s))
  {
    forall v | IsIntegerText(s, v)
      ensures false
    {
      IntegerTextHasDigit(s, v);
    }
    ParseNonIntegerText(s);
  }

  // ---------------------------------------------------------------------------
  // String.TrimEnd(ch)
  // ---------------------------------------------------------------------------

  /** `s.TrimEnd(ch)`: drops every trailing `ch`. */
  function TrimEnd(s: string, ch: char): (r: string)
    ensures |r| <= |s| && r == s[..|r|]
    ensures r == [] || r[|r| - 1] != ch
    ensures forall i :: |r| <= i < |s| ==> s[i] == ch
    decreases |s|
  {
    if s != [] && s[|s| - 1] == ch then TrimEnd(s[..|s| - 1], ch) else s
  }
}
