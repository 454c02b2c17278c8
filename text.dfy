/** String helpers with Python's semantics: str.strip, str.split(sep, 1), str.splitlines, str(int), int(str). */
module Text {
  import opened Wrappers

  /** Python's str.isspace for one character. */
  predicate IsSpace(c: char) {
    var n := c as int;
    n == 32 || 9 <= n <= 13 || 28 <= n <= 31 || n == 0x85 || n == 0xA0 || n == 0x1680
    || 0x2000 <= n <= 0x200A || n == 0x2028 || n == 0x2029 || n == 0x202F || n == 0x205F || n == 0x3000
  }

  /** Which characters end a line: str.splitlines (every Unicode line boundary), a file read in text
      mode (universal newlines: "\n", "\r" and "\r\n") or a plain split on "\n". */
  datatype Newlines = AllBoundaries | Universal | LineFeed

  predicate IsBreak(mode: Newlines, c: char) {
    var n := c as int;
    match mode
    case AllBoundaries =>
      n == 10 || n == 13 || n == 11 || n == 12 || 28 <= n <= 30 || n == 0x85 || n == 0x2028 || n == 0x2029
    case Universal => n == 10 || n == 13
    case LineFeed => n == 10
  }

  predicate NoBreak(mode: Newlines, s: string) {
    forall i :: 0 <= i < |s| ==> !IsBreak(mode, s[i])
  }

  predicate IsAscii(s: string) {
    forall i :: 0 <= i < |s| ==> (s[i] as int) < 128
  }

  function TrimLeft(s: string): (r: string)
    ensures |r| <= |s| && r == s[|s| - |r|..]
    ensures r == [] || !IsSpace(r[0])
    ensures forall i :: 0 <= i < |s| - |r| ==> IsSpace(s[i])
  {
    if s != [] && IsSpace(s[0]) then
      var r := TrimLeft(s[1..]);
      assert s[1..][|s| - 1 - |r|..] == s[|s| - |r|..];
      assert forall i :: 1 <= i < |s| - |r| ==> s[i] == s[1..][i - 1];
      r
    else s
  }

  function TrimRight(s: string): (r: string)
    ensures |r| <= |s| && r == s[..|r|]
    ensures r == [] || !IsSpace(r[|r| - 1])
    ensures forall i :: |r| <= i < |s| ==> IsSpace(s[i])
  {
    if s != [] && IsSpace(s[|s| - 1]) then
      var r := TrimRight(s[..|s| - 1]);
      assert s[..|s| - 1][..|r|] == s[..|r|];
      assert forall i :: |r| <= i < |s| - 1 ==> s[i] == s[..|s| - 1][i];
      r
    else s
  }

  /** Python's str.strip(): drop leading and trailing whitespace. */
  function Strip(s: string): (r: string)
    ensures |r| <= |s|
    ensures r == [] || (!IsSpace(r[0]) && !IsSpace(r[|r| - 1]))
  {
    TrimRight(TrimLeft(s))
  }

  /** A string that has no whitespace at either end is its own strip. */
  lemma StripFixed(s: string)
    requires s == [] || (!IsSpace(s[0]) && !IsSpace(s[|s| - 1]))
    ensures Strip(s) == s
  {
  }

  lemma StripIdempotent(s: string)
    ensures Strip(Strip(s)) == Strip(s)
  {
    StripFixed(Strip(s));
  }

  /** True when every character is whitespace, i.e. `not s.strip()`. */
  lemma StripEmptyIffBlank(s: string)
    ensures Strip(s) == [] <==> forall i :: 0 <= i < |s| ==> IsSpace(s[i])
  {
  }

  /** Index of the first occurrence of `c`, if any. */
  function IndexOf(s: string, c: char): (r: Option<nat>)
    ensures r.Some? ==> r.value < |s| && s[r.value] == c && c !in s[..r.value]
    ensures r.None? <==> c !in s
  {
    if s == [] then None
    else if s[0] == c then Some(0)
    else match IndexOf(s[1..], c)
      case None => None
      case Some(i) => assert s[1..][..i] == s[1..i + 1]; Some(i + 1)
  }

  /** Python's `s.split(c, 1)` when `c in s`: the text before and after the first `c`. */
  function SplitFirst(s: string, c: char): (r: Option<(string, string)>)
    ensures r.None? <==> c !in s
    ensures r.Some? ==> s == r.value.0 + [c] + r.value.1 && c !in r.value.0
  {
    match IndexOf(s, c)
    case None => None
    case Some(i) => assert s == s[..i] + [c] + s[i + 1..]; Some((s[..i], s[i + 1..]))
  }

  /** Python's `s.split(c)[0]`: everything before the first `c`, or all of `s`. */
  function BeforeFirst(s: string, c: char): (r: string)
    ensures c !in r
    ensures r == s || (|r| < |s| && s[|r|] == c && r == s[..|r|])
  {
    match SplitFirst(s, c)
    case None => s
    case Some(p) => p.0
  }

  /** Index of the first line boundary, if any. */
  function IndexOfBreak(mode: Newlines, s: string): (r: Option<nat>)
    ensures r.Some? ==> r.value < |s| && IsBreak(mode, s[r.value]) && NoBreak(mode, s[..r.value])
    ensures r.None? <==> NoBreak(mode, s)
  {
    if s == [] then None
    else if IsBreak(mode, s[0]) then Some(0)
    else match IndexOfBreak(mode, s[1..])
      case None => None
      case Some(i) => assert s[1..][..i] == s[1..i + 1]; Some(i + 1)
  }

  lemma {:induction false} IndexOfBreakAt(mode: Newlines, s: string, n: nat)
    requires n < |s| && IsBreak(mode, s[n]) && NoBreak(mode, s[..n])
    ensures IndexOfBreak(mode, s) == Some(n)
  {
    if n > 0 {
      assert s[..n][0] == s[0];
      assert s[1..][..n - 1] == s[1..n];
      IndexOfBreakAt(mode, s[1..], n - 1);
    }
  }

  /** The lines of `s`, terminators dropped: "\r\n" is one boundary wherever "\r" is one, and no empty
      line follows a final boundary. With AllBoundaries this is str.splitlines(); with Universal it is
      iterating over a file opened in text mode. */
  function Lines(mode: Newlines, s: string): (r: seq<string>)
    decreases |s|
  {
    if s == [] then []
    else match IndexOfBreak(mode, s)
      case None => [s]
      case Some(i) =>
        var next := if s[i] == '\r' && i + 1 < |s| && s[i + 1] == '\n' then i + 2 else i + 1;
        [s[..i]] + Lines(mode, s[next..])
  }

  /** Each line followed by "\n", as a file written one line per call reads. */
  function Terminated(lines: seq<string>): string
  {
    if lines == [] then "" else lines[0] + "\n" + Terminated(lines[1..])
  }

  /** A line with no boundary in it, then "\n", then the rest, splits as that line followed by the rest's lines. */
  lemma LinesCons(mode: Newlines, line: string, rest: string)
    requires NoBreak(mode, line)
    ensures Lines(mode, line + "\n" + rest) == [line] + Lines(mode, rest)
  {
    var s := line + "\n" + rest;
    var n := |line|;
    assert s[..n] == line;
    assert s[n] == '\n';
    IndexOfBreakAt(mode, s, n);
    assert s[n + 1..] == rest;
  }

  /** Reading back newline-terminated lines that hold no boundary gives them back. */
  lemma {:induction false} LinesOfTerminated(mode: Newlines, lines: seq<string>)
    requires forall i :: 0 <= i < |lines| ==> NoBreak(mode, lines[i])
    ensures Lines(mode, Terminated(lines)) == lines
  {
    if lines != [] {
      LinesCons(mode, lines[0], Terminated(lines[1..]));
      LinesOfTerminated(mode, lines[1..]);
    }
  }

  function DigitChar(d: nat): (c: char)
    requires d < 10
    ensures '0' <= c <= '9'
  {
    "0123456789"[d]
  }

  predicate IsDigit(c: char) { '0' <= c <= '9' }

  function DigitValue(c: char): (d: nat)
    requires IsDigit(c)
    ensures d < 10
  {
    (c as int) - ('0' as int)
  }

  /** Decimal digits of a natural number, most significant first, no leading zero. */
  function NatDigits(n: nat): (s: string)
    ensures |s| > 0 && AllDigits(s)
    decreases n
  {
    if n < 10 then [DigitChar(n)] else NatDigits(n / 10) + [DigitChar(n % 10)]
  }

  predicate AllDigits(s: string) {
    forall i :: 0 <= i < |s| ==> IsDigit(s[i])
  }

  function DigitsValue(s: string): nat
    requires AllDigits(s)
  {
    if s == [] then 0 else 10 * DigitsValue(s[..|s| - 1]) + DigitValue(s[|s| - 1])
  }

  lemma {:induction false} DigitsRoundTrip(n: nat)
    ensures DigitsValue(NatDigits(n)) == n
  {
    if n >= 10 {
      var s := NatDigits(n);
      assert s[..|s| - 1] == NatDigits(n / 10);
      DigitsRoundTrip(n / 10);
    }
  }

  /** Python's str(i) for an int. */
  function IntToString(i: int): (s: string)
    ensures |s| > 0 && NoBreak(AllBoundaries, s) && !IsSpace(s[0]) && !IsSpace(s[|s| - 1])
  {
    var s := if i < 0 then "-" + NatDigits(-i) else NatDigits(i);
    assert forall k :: 0 <= k < |s| ==> s[k] == '-' || IsDigit(s[k]);
    s
  }

  /** Python's int(s) for a str: surrounding whitespace, an optional sign and ASCII digits, single
      underscores allowed between digits. */
  function ParseInt(s: string): (r: Option<int>)
  {
    ParseSigned(Strip(s))
  }

  /** Digits grouped by single underscores: it ends with a digit, and what comes before that digit is
      nothing, a grouped literal, or a grouped literal and one underscore. */
  predicate Grouped(s: string)
    decreases |s|
  {
    && s != [] && IsDigit(s[|s| - 1])
    && var init := s[..|s| - 1];
       || init == []
       || (init[|init| - 1] == '_' && Grouped(init[..|init| - 1]))
       || (init[|init| - 1] != '_' && Grouped(init))
  }

  /** The digits of a grouped literal, underscores removed. */
  function Ungrouped(s: string): (d: string)
    requires Grouped(s)
    ensures d != [] && AllDigits(d) && |d| <= |s|
    decreases |s|
  {
    var init, last := s[..|s| - 1], s[|s| - 1];
    if init == [] then [last]
    else if init[|init| - 1] == '_' then Ungrouped(init[..|init| - 1]) + [last]
    else Ungrouped(init) + [last]
  }

  /** Plain digits are grouped, and removing their (absent) underscores leaves them as they are. */
  lemma {:induction false} DigitsGrouped(s: string)
    requires s != [] && AllDigits(s)
    ensures Grouped(s) && Ungrouped(s) == s
    decreases |s|
  {
    var init := s[..|s| - 1];
    if init != [] {
      DigitsGrouped(init);
      assert IsDigit(init[|init| - 1]);
      assert init + [s[|s| - 1]] == s;
    }
  }

  /** An optional sign followed by grouped ASCII digits, nothing else. */
  function ParseSigned(t: string): (r: Option<int>)
  {
    if t == [] then None
    else
      var neg := t[0] == '-';
      var body := if t[0] == '-' || t[0] == '+' then t[1..] else t;
      if Grouped(body) then
        var v: int := DigitsValue(Ungrouped(body));
        Some(if neg then -v else v)
      else None
  }

  /** "1_0" reads as 10. */
  lemma UnderscoreGrouping()
    ensures ParseSigned("1_0") == Some(10)
  {
    var t := "1_0";
    assert t[..2] == "1_" && t[..1] == "1" && t[..0] == "";
    assert Grouped("1");
    assert Grouped(t);
    assert Ungrouped("1") == "1";
    assert Ungrouped(t) == "10";
    var d := "10";
    assert d[..1] == "1" && d[..0] == "";
    assert DigitsValue("1") == 1;
    assert DigitsValue(d) == 10;
    assert t[0] == '1';
  }

  /** A doubled, leading or trailing underscore is refused. */
  lemma UnderscoreMisplaced()
    ensures ParseSigned("1__0").None? && ParseSigned("10_").None? && ParseSigned("_10").None?
  {
    var u := "1__0";
    assert u[..3] == "1__" && u[..2] == "1_";
    assert !Grouped("1_");
    assert !Grouped(u);
    var v := "_10";
    assert v[..2] == "_1" && v[..1] == "_" && v[..0] == "";
    assert !Grouped("_");
    assert !Grouped("_1");
  }

  lemma ParseSignedOfDigits(body: string, neg: bool)
    requires body != [] && AllDigits(body)
    ensures var v: int := DigitsValue(body); ParseSigned(if neg then "-" + body else body) == Some(if neg then -v else v)
  {
    DigitsGrouped(body);
    if neg {
      var t := "-" + body;
      assert t[0] == '-' && t[1..] == body;
    } else {
      assert IsDigit(body[0]) && body[0] != '-' && body[0] != '+';
    }
  }

  lemma ParseIntOfDigits(body: string, neg: bool)
    requires body != [] && AllDigits(body)
    ensures var v: int := DigitsValue(body); ParseInt(if neg then "-" + body else body) == Some(if neg then -v else v)
  {
    var s := if neg then "-" + body else body;
    assert IsDigit(body[|body| - 1]) && IsDigit(body[0]);
    assert s[|s| - 1] == body[|body| - 1];
    StripFixed(s);
    ParseSignedOfDigits(body, neg);
  }

  /** Text that a line can carry and strip() leaves alone: no line boundary, no whitespace at either end. */
  predicate Plain(s: string) {
    NoBreak(AllBoundaries, s) && (s == [] || (!IsSpace(s[0]) && !IsSpace(s[|s| - 1])))
  }

  lemma NoBreakAppend(mode: Newlines, a: string, b: string)
    requires NoBreak(mode, a) && NoBreak(mode, b)
    ensures NoBreak(mode, a + b)
  {
    forall i | 0 <= i < |a + b|
      ensures !IsBreak(mode, (a + b)[i])
    {
      if i >= |a| {
        assert (a + b)[i] == b[i - |a|];
      }
    }
  }

  /** `"\n".join(lines)`. */
  function JoinLines(lines: seq<string>): string
  {
    if lines == [] then "" else if |lines| == 1 then lines[0] else lines[0] + "\n" + JoinLines(lines[1..])
  }

  /** Splitting into lines undoes "\n".join when no line holds a boundary and the last is not empty. */
  lemma {:induction false} LinesOfJoined(mode: Newlines, lines: seq<string>)
    requires lines != [] && lines[|lines| - 1] != []
    requires forall i :: 0 <= i < |lines| ==> NoBreak(mode, lines[i])
    ensures Lines(mode, JoinLines(lines)) == lines
  {
    if |lines| == 1 {
      assert IndexOfBreak(mode, lines[0]).None?;
      assert Lines(mode, lines[0]) == [lines[0]];
    } else {
      var rest := lines[1..];
      assert rest[|rest| - 1] == lines[|lines| - 1];
      assert JoinLines(lines) == lines[0] + "\n" + JoinLines(rest);
      LinesCons(mode, lines[0], JoinLines(rest));
      LinesOfJoined(mode, rest);
      assert lines == [lines[0]] + rest;
    }
  }

  /** Every universal newline is also a splitlines() boundary. */
  lemma NoBreakUniversal(s: string)
    requires NoBreak(AllBoundaries, s)
    ensures NoBreak(Universal, s)
  {
  }

  /** Python's `s.split(c)`: the pieces between the occurrences of `c`, joined back by `c`. */
  function Split(s: string, c: char): (parts: seq<string>)
    ensures parts != [] && JoinWith(parts, c) == s
    ensures forall i :: 0 <= i < |parts| ==> c !in parts[i]
    decreases |s|
  {
    match SplitFirst(s, c)
    case None => [s]
    case Some((before, after)) => [before] + Split(after, c)
  }

  /** `c.join(parts)`. */
  function JoinWith(parts: seq<string>, c: char): string
    requires parts != []
  {
    if |parts| == 1 then parts[0] else parts[0] + [c] + JoinWith(parts[1..], c)
  }

  /** Splitting on `c` undoes joining by `c` pieces that do not contain it. */
  lemma {:induction false} SplitJoin(parts: seq<string>, c: char)
    requires parts != [] && forall i :: 0 <= i < |parts| ==> c !in parts[i]
    ensures Split(JoinWith(parts, c), c) == parts
  {
    if |parts| == 1 {
      assert SplitFirst(parts[0], c).None?;
    } else {
      var s := JoinWith(parts, c);
      var rest := JoinWith(parts[1..], c);
      assert s == parts[0] + [c] + rest;
      assert s[|parts[0]|] == c && s[..|parts[0]|] == parts[0];
      IndexOfAt(s, c, |parts[0]|);
      assert SplitFirst(s, c) == Some((parts[0], rest)) by {
        assert s[|parts[0]| + 1..] == rest;
      }
      SplitJoin(parts[1..], c);
      assert parts == [parts[0]] + parts[1..];
    }
  }

  /** The first `c` is at `n` when `s[n]` is `c` and none comes before it. */
  lemma {:induction false} IndexOfAt(s: string, c: char, n: nat)
    requires n < |s| && s[n] == c && c !in s[..n]
    ensures IndexOf(s, c) == Some(n)
  {
    if n > 0 {
      assert s[0] == s[..n][0];
      assert s[1..][..n - 1] == s[1..n];
      IndexOfAt(s[1..], c, n - 1);
    }
  }

  /** int(str(i)) == i. */
  lemma IntStringRoundTrip(i: int)
    ensures ParseInt(IntToString(i)) == Some(i)
  {
    var neg := i < 0;
    var n: nat := if neg then -i else i;
    var d := NatDigits(n);
    DigitsRoundTrip(n);
    ParseIntOfDigits(d, neg);
    assert IntToString(i) == if neg then "-" + d else d;
  }

  /** Python's `s.replace(a, b)` for single characters. */
  function ReplaceChar(s: string, a: char, b: char): (r: string)
    ensures |r| == |s|
    ensures forall i :: 0 <= i < |s| ==> r[i] == (if s[i] == a then b else s[i])
  {
    if s == [] then [] else [if s[0] == a then b else s[0]] + ReplaceChar(s[1..], a, b)
  }

  /** Python's `s[:n]`. */
  function Take(s: string, n: nat): (r: string)
    ensures |r| == if |s| < n then |s| else n
    ensures r == s[..|r|]
  {
    if |s| <= n then s else s[..n]
  }

  predicate IsPrefix(a: string, b: string) {
    |a| <= |b| && b[..|a|] == a
  }

  /** Python's `a in b` for strings: `a` occurs contiguously somewhere in `b`. */
  predicate Contains(b: string, a: string)
    decreases |b|
  {
    IsPrefix(a, b) || (b != [] && Contains(b[1..], a))
  }
}
