/**
 Source text: the lines of a program as make-bas.py takes them from a text file.
 */
module BasicSource {
  import opened Common
  import opened BasicText
  import opened Decimals
  import opened BasicTokens
  import opened BasicCanon
  import opened BasicFile

  // Line breaks and white space of ASCII.
  predicate IsBreak(c: char) { c as int in {0x0A, 0x0B, 0x0C, 0x0D, 0x1C, 0x1D, 0x1E} }

  predicate IsSpace(c: char) { 0x09 <= c as int <= 0x0D || 0x1C <= c as int <= 0x20 }

  predicate NoBreak(s: string) { forall p | 0 <= p < |s| :: !IsBreak(s[p]) }

  // The position of the first break from n on.
  function BreakFrom(t: string, n: nat): (r: nat)
    requires n <= |t|
    ensures n <= r <= |t|
    ensures forall p | n <= p < r :: !IsBreak(t[p])
    ensures r < |t| ==> IsBreak(t[r])
    decreases |t| - n
  {
    if n < |t| && !IsBreak(t[n]) then BreakFrom(t, n + 1) else n
  }

  function SplitLines(t: string): seq<string>
    decreases |t|
  {
    var n := BreakFrom(t, 0);
    if t == "" then []
    else if n == |t| then [t]
    else
      var after := if t[n] == '\r' && n + 1 < |t| && t[n + 1] == '\n' then n + 2 else n + 1;
      [t[..n]] + SplitLines(t[after..])
  }

  function StripLeft(s: string): (r: string)
    ensures |r| <= |s| && r == s[|s| - |r|..]
    ensures r != "" ==> !IsSpace(r[0])
  {
    if s != "" && IsSpace(s[0]) then StripLeft(s[1..]) else s
  }

  function StripRight(s: string): (r: string)
    ensures |r| <= |s| && r == s[..|r|]
    ensures r != "" ==> !IsSpace(r[|r| - 1])
  {
    if s != "" && IsSpace(s[|s| - 1]) then StripRight(s[..|s| - 1]) else s
  }

  function Strip(s: string): string { StripRight(StripLeft(s)) }

  // A stripped line: digits, white space, the rest.
  function ParseLine(s: string): Option<Line> {
    var d := DigitsEnd(s, 0);
    if d == 0 || d == |s| || !IsSpace(s[d]) then None
    else Some(Line(Decimal(s[..d]), StripLeft(s[d..])))
  }

  // The line a row stands for, none for a blank row; None: no line number.
  function ParseRow(row: string): Option<seq<Line>> {
    var s := Strip(row);
    if s == "" then Some([])
    else
      match ParseLine(s)
      case None => None
      case Some(l) => Some([l])
  }

  function ParseLines(rows: seq<string>): Option<seq<Line>> {
    if rows == [] then Some([])
    else
      match ParseRow(rows[0])
      case None => None
      case Some(l) => Prepend(l, ParseLines(rows[1..]))
  }

  function Parse(source: string): Option<seq<Line>> { ParseLines(SplitLines(source)) }

  function Program(host: HostFloat, source: string): Option<seq<byte>> {
    match Parse(source)
    case None => None
    case Some(lines) => Body(host, lines)
  }

  // Lines as source text again.
  function Row(l: Line): string { Dec(l.number) + " " + l.text }

  function Rows(lines: seq<Line>): (r: seq<string>)
    ensures |r| == |lines| && forall k | 0 <= k < |r| :: r[k] == Row(lines[k])
  {
    if lines == [] then [] else [Row(lines[0])] + Rows(lines[1..])
  }

  function Source(lines: seq<Line>): string {
    if lines == [] then "" else Row(lines[0]) + "\n" + Source(lines[1..])
  }

  // The texts that parsing can yield.
  ghost predicate Trimmed(s: string) {
    s != "" && !IsSpace(s[0]) && !IsSpace(s[|s| - 1]) && NoBreak(s)
  }

  ghost predicate AllTrimmed(lines: seq<Line>) { forall k | 0 <= k < |lines| :: Trimmed(lines[k].text) }

  lemma {:induction false} BreakIsFirst(t: string, n: nat, m: nat)
    requires n <= m <= |t| && (forall p | n <= p < m :: !IsBreak(t[p])) && (m == |t| || IsBreak(t[m]))
    ensures BreakFrom(t, n) == m
    decreases m - n
  {
    if n < m {
      BreakIsFirst(t, n + 1, m);
    }
  }

  lemma SplitFirst(l: string, rest: string)
    requires NoBreak(l)
    ensures SplitLines(l + "\n" + rest) == [l] + SplitLines(rest)
  {
    var t := l + "\n" + rest;
    assert t[|l|] == '\n';
    BreakIsFirst(t, 0, |l|);
    assert t[..|l|] == l && t[|l| + 1..] == rest;
  }

  lemma RowIsStripped(l: Line)
    requires Trimmed(l.text)
    ensures Strip(Row(l)) == Row(l) != "" && NoBreak(Row(l))
  {
    var d, s := Dec(l.number), Row(l);
    assert s[0] == d[0] && s[|s| - 1] == l.text[|l.text| - 1];
    assert StripLeft(s) == s;
  }

  lemma DigitsThenText(d: string, text: string)
    requires d != "" && (forall p | 0 <= p < |d| :: Digit(d[p])) && Trimmed(text)
    ensures ParseLine(d + " " + text) == Some(Line(Decimal(d), text))
  {
    var s := d + " " + text;
    assert s[|d|] == ' ';
    DigitsAre(s, 0, |d|);
    assert s[..|d|] == d;
    SpaceIsStripped(s, |d|, text);
  }

  lemma SpaceIsStripped(s: string, n: nat, text: string)
    requires n < |s| && s[n] == ' ' && s[n + 1..] == text && Trimmed(text)
    ensures StripLeft(s[n..]) == text
  {
    assert s[n..][1..] == text;
    assert StripLeft(text) == text;
  }

  // A row is read as the line it was made from.
  lemma RowParses(l: Line)
    requires Trimmed(l.text)
    ensures ParseRow(Row(l)) == Some([l])
  {
    RowIsStripped(l);
    DecimalOfDec(l.number);
    DigitsThenText(Dec(l.number), l.text);
  }

  lemma {:induction false} SourceSplits(lines: seq<Line>)
    requires AllTrimmed(lines)
    ensures SplitLines(Source(lines)) == Rows(lines)
  {
    if lines != [] {
      RowIsStripped(lines[0]);
      SplitFirst(Row(lines[0]), Source(lines[1..]));
      SourceSplits(lines[1..]);
    }
  }

  lemma {:induction false} RowsParse(rows: seq<string>, lines: seq<Line>)
    requires |rows| == |lines| && forall k | 0 <= k < |rows| :: ParseRow(rows[k]) == Some([lines[k]])
    ensures ParseLines(rows) == Some(lines)
  {
    if lines != [] {
      RowsParse(rows[1..], lines[1..]);
      assert [lines[0]] + lines[1..] == lines;
    }
  }

  /** Lines written as source text are parsed as those lines. */
  lemma ParseOfSource(lines: seq<Line>)
    requires AllTrimmed(lines)
    ensures Parse(Source(lines)) == Some(lines)
  {
    SourceSplits(lines);
    forall k | 0 <= k < |lines| ensures ParseRow(Rows(lines)[k]) == Some([lines[k]]) {
      RowParses(lines[k]);
    }
    RowsParse(Rows(lines), lines);
  }

  ghost predicate NoBreaks(rows: seq<string>) { forall k | 0 <= k < |rows| :: NoBreak(rows[k]) }

  lemma {:induction false} SplitHasNoBreaks(t: string)
    ensures NoBreaks(SplitLines(t))
    decreases |t|
  {
    var n := BreakFrom(t, 0);
    if t != "" && n < |t| {
      var after := if t[n] == '\r' && n + 1 < |t| && t[n + 1] == '\n' then n + 2 else n + 1;
      SplitHasNoBreaks(t[after..]);
    }
  }

  lemma {:induction false} StripLeftKeepsEnd(s: string)
    requires s != "" && !IsSpace(s[|s| - 1])
    ensures StripLeft(s) != ""
  {
    if IsSpace(s[0]) {
      StripLeftKeepsEnd(s[1..]);
    }
  }

  // A part of a row that starts and ends with other than spaces.
  lemma PartIsTrimmed(row: string, left: string, s: string)
    requires NoBreak(row) && |s| <= |left| <= |row| && left == row[|row| - |left|..] && s == left[..|s|]
    requires s != "" && !IsSpace(left[0]) && !IsSpace(s[|s| - 1])
    ensures Trimmed(s)
  {
    assert forall p | 0 <= p < |s| :: s[p] == left[p] == row[|row| - |left| + p];
  }

  lemma StripTrims(row: string)
    requires NoBreak(row) && Strip(row) != ""
    ensures Trimmed(Strip(row))
  {
    PartIsTrimmed(row, StripLeft(row), StripRight(StripLeft(row)));
  }

  lemma TailTrims(s: string, d: nat)
    requires Trimmed(s) && d < |s|
    ensures Trimmed(StripLeft(s[d..]))
  {
    var t := s[d..];
    assert t[|t| - 1] == s[|s| - 1];
    StripLeftKeepsEnd(t);
    SuffixTrims(s, StripLeft(t));
  }

  lemma SuffixTrims(s: string, r: string)
    requires Trimmed(s) && r != "" && |r| <= |s| && r == s[|s| - |r|..] && !IsSpace(r[0])
    ensures Trimmed(r)
  {
    assert forall p | 0 <= p < |r| :: r[p] == s[|s| - |r| + p];
  }

  lemma ParseRowTrims(row: string)
    requires NoBreak(row) && ParseRow(row).Some?
    ensures AllTrimmed(ParseRow(row).value)
  {
    if Strip(row) != "" {
      StripTrims(row);
      TailTrims(Strip(row), DigitsEnd(Strip(row), 0));
    }
  }

  lemma {:induction false} ParseTrims(rows: seq<string>)
    requires NoBreaks(rows) && ParseLines(rows).Some?
    ensures AllTrimmed(ParseLines(rows).value)
  {
    if rows != [] {
      ParseRowTrims(rows[0]);
      ParseTrims(rows[1..]);
    }
  }

  // What the listing shows of each line.
  function Relisted(lines: seq<Line>): (r: seq<Line>)
    ensures |r| == |lines|
    ensures forall k | 0 <= k < |lines| :: r[k] == Line(lines[k].number, Canon(lines[k].text))
  {
    if lines == [] then [] else [Line(lines[0].number, Canon(lines[0].text))] + Relisted(lines[1..])
  }

  lemma CanonTrimmed(s: string)
    requires Trimmed(s)
    ensures Trimmed(Canon(s))
  {
    var u := Canon(s);
    TokOfCanon(x => None, s);
    assert |Upper(u)| == |Upper(s)|;
    forall p | 0 <= p < |s| ensures IsSpace(u[p]) == IsSpace(s[p]) && IsBreak(u[p]) == IsBreak(s[p]) {
      SameClass(s, u, p);
      SameClass(u, s, p);
    }
  }

  lemma {:induction false} BodyOfRelisted(host: HostFloat, lines: seq<Line>)
    ensures Body(host, Relisted(lines)) == Body(host, lines)
  {
    if lines != [] {
      TokOfCanon(host, lines[0].text);
      BodyOfRelisted(host, lines[1..]);
    }
  }

  lemma RelistedIsTrimmed(lines: seq<Line>)
    requires AllTrimmed(lines)
    ensures AllTrimmed(Relisted(lines))
  {
    forall k | 0 <= k < |lines| ensures Trimmed(Relisted(lines)[k].text) {
      CanonTrimmed(lines[k].text);
    }
  }

  // Balanced lines are shown without any addition.
  lemma BalancedIsCanon(text: string)
    requires Balanced(text)
    ensures ShownText(text) == Canon(text)
  {
    assert Canon(text) + "" == Canon(text);
  }

  // The listing has each line's number and text, keywords in upper case.
  ghost predicate ListedAll(lines: seq<Line>, y: Yielded) {
    && y.whole && |y.lines| == |lines|
    && forall k | 0 <= k < |lines| :: y.lines[k].number == lines[k].number && y.lines[k].text == Canon(lines[k].text)
  }

  lemma {:induction false} LinesRoundTrip(host: HostFloat, lines: seq<Line>, head: seq<byte>)
    requires |head| == 128 && head[..8] == MAGIC && Body(host, lines).Some?
    requires AllPlain(lines) && AllListable(CodedLines(host, lines))
    requires forall k | 0 <= k < |lines| :: Balanced(lines[k].text)
    ensures ListedAll(lines, List(head + Body(host, lines).value))
  {
    var y := List(head + Body(host, lines).value);
    ListOfFile(host, lines, head);
    forall k | 0 <= k < |lines|
      ensures y.lines[k].number == lines[k].number && y.lines[k].text == Canon(lines[k].text)
    {
      assert ListedAs(host, lines[k], y.lines[k]);
      BalancedIsCanon(lines[k].text);
    }
  }

  /** A source program written to a +3DOS file is listed to its end with the same
      numbers and the same texts, keywords in upper case. */
  lemma {:induction false} SourceRoundTrip(host: HostFloat, source: string, head: seq<byte>)
    requires |head| == 128 && head[..8] == MAGIC && Program(host, source).Some?
    requires var lines := Parse(source).value;
             && AllPlain(lines) && AllListable(CodedLines(host, lines))
             && forall k | 0 <= k < |lines| :: Balanced(lines[k].text)
    ensures ListedAll(Parse(source).value, List(head + Program(host, source).value))
  {
    LinesRoundTrip(host, Parse(source).value, head);
  }

  /** The listing, taken as source text, makes the same bytes again. */
  lemma ListingRebuilds(host: HostFloat, source: string)
    requires Parse(source).Some?
    ensures Program(host, Source(Relisted(Parse(source).value))) == Program(host, source)
  {
    var lines := Parse(source).value;
    SplitHasNoBreaks(source);
    ParseTrims(SplitLines(source));
    RelistedIsTrimmed(lines);
    ParseOfSource(Relisted(lines));
    BodyOfRelisted(host, lines);
  }
}
