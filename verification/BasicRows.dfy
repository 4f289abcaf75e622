/**
 How a source text falls into rows, and which rows are lines of a program.
 */
module BasicRows {
  import opened Common
  import opened BasicText
  import opened Decimals
  import opened BasicFile
  import opened BasicSource

  // No line break of any kind: line feed, vertical tab, form feed, carriage return,
  // and the file, group and record separators.
  ghost predicate OneRow(s: string) { forall p | 0 <= p < |s| :: s[p] as int !in {10, 11, 12, 13, 28, 29, 30} }

  lemma OneRowHasNoBreak(s: string)
    ensures OneRow(s) <==> NoBreak(s)
  {
    if NoBreak(s) {
      forall p | 0 <= p < |s| ensures s[p] as int !in {10, 11, 12, 13, 28, 29, 30} {
        assert !IsBreak(s[p]);
      }
    }
  }

  lemma BreakHere(row: string, c: char, rest: string)
    requires NoBreak(row) && IsBreak(c)
    ensures var t := row + [c] + rest;
            SplitLines(t) == [row] + SplitLines(if c == '\r' && rest != "" && rest[0] == '\n' then rest[1..] else rest)
  {
    var t := row + [c] + rest;
    assert t[|row|] == c;
    BreakIsFirst(t, 0, |row|);
    assert t[..|row|] == row && t[|row| + 1..] == rest;
    if rest != "" { assert t[|row| + 1] == rest[0] && t[|row| + 2..] == rest[1..]; }
  }

  /** A row ends at a break. */
  lemma RowEnds(row: string, c: char, rest: string)
    requires OneRow(row) && c as int in {10, 11, 12, 13, 28, 29, 30}
    requires c != '\r' || rest == "" || rest[0] != '\n'
    ensures SplitLines(row + [c] + rest) == [row] + SplitLines(rest)
  {
    OneRowHasNoBreak(row);
    BreakHere(row, c, rest);
  }

  /** A carriage return and a line feed together are one break. */
  lemma RowEndsOnce(row: string, rest: string)
    requires OneRow(row)
    ensures SplitLines(row + "\r\n" + rest) == [row] + SplitLines(rest)
  {
    OneRowHasNoBreak(row);
    BreakHere(row, '\r', "\n" + rest);
    assert row + ['\r'] + ("\n" + rest) == row + "\r\n" + rest;
    assert ("\n" + rest)[1..] == rest;
  }

  /** And the last row needs none. */
  lemma {:induction false} LastRow(row: string)
    requires OneRow(row)
    ensures SplitLines(row) == if row == "" then [] else [row]
  {
    OneRowHasNoBreak(row);
    BreakIsFirst(row, 0, |row|);
  }

  // ------------------------------------------------------- one row ---------

  // White space: tab to carriage return, the four separators, and the blank.
  predicate Blank(c: char) { 9 <= c as int <= 13 || 28 <= c as int <= 32 }

  ghost predicate Blanks(s: string) { forall p | 0 <= p < |s| :: Blank(s[p]) }

  ghost predicate Digits(s: string) { s != "" && forall p | 0 <= p < |s| :: Digit(s[p]) }

  // A text with nothing blank at either end.
  ghost predicate Tight(s: string) { s != "" && !Blank(s[0]) && !Blank(s[|s| - 1]) }

  lemma BlankIsSpace(c: char)
    ensures Blank(c) == IsSpace(c)
  {
  }

  // What is stripped is blank.
  lemma {:induction false} LeftGone(s: string, p: nat)
    requires p < |s| - |StripLeft(s)|
    ensures Blank(s[p])
  {
    BlankIsSpace(s[0]);
    if p > 0 {
      LeftGone(s[1..], p - 1);
    }
  }

  lemma {:induction false} RightGone(s: string, p: nat)
    requires |StripRight(s)| <= p < |s|
    ensures Blank(s[p])
    decreases |s|
  {
    BlankIsSpace(s[|s| - 1]);
    if p < |s| - 1 {
      RightGone(s[..|s| - 1], p);
    }
  }

  // Where blanks end is one place.
  lemma OneBorder(t: string, i: nat, j: nat)
    requires i <= |t| && (forall p | 0 <= p < i :: Blank(t[p])) && (i == |t| || !Blank(t[i]))
    requires j <= |t| && (forall p | 0 <= p < j :: Blank(t[p])) && (j == |t| || !Blank(t[j]))
    ensures i == j
  {
  }

  lemma OneBorderBehind(t: string, i: nat, j: nat)
    requires i <= |t| && (forall p | i <= p < |t| :: Blank(t[p])) && (i == 0 || !Blank(t[i - 1]))
    requires j <= |t| && (forall p | j <= p < |t| :: Blank(t[p])) && (j == 0 || !Blank(t[j - 1]))
    ensures i == j
  {
  }

  lemma {:induction false} LeftBorder(t: string)
    ensures var j := |t| - |StripLeft(t)|;
            (forall p | 0 <= p < j :: Blank(t[p])) && (j == |t| || !Blank(t[j])) && t[j..] == StripLeft(t)
  {
    var r := StripLeft(t);
    forall p | 0 <= p < |t| - |r| ensures Blank(t[p]) {
      LeftGone(t, p);
    }
    if r != "" { BlankIsSpace(r[0]); }
  }

  lemma {:induction false} RightBorder(t: string)
    ensures var j := |StripRight(t)|;
            (forall p | j <= p < |t| :: Blank(t[p])) && (j == 0 || !Blank(t[j - 1])) && t[..j] == StripRight(t)
  {
    var r := StripRight(t);
    forall p | |r| <= p < |t| ensures Blank(t[p]) {
      RightGone(t, p);
    }
    if r != "" { BlankIsSpace(r[|r| - 1]); }
  }

  lemma {:induction false} LeftIsStripped(sp: string, s: string)
    requires Blanks(sp) && (s == "" || !Blank(s[0]))
    ensures StripLeft(sp + s) == s
  {
    var t := sp + s;
    LeftBorder(t);
    assert t[|sp|..] == s;
    OneBorder(t, |sp|, |t| - |StripLeft(t)|);
  }

  lemma {:induction false} RightIsStripped(s: string, sp: string)
    requires Blanks(sp) && (s == "" || !Blank(s[|s| - 1]))
    ensures StripRight(s + sp) == s
  {
    var t := s + sp;
    RightBorder(t);
    assert t[..|s|] == s;
    OneBorderBehind(t, |s|, |StripRight(t)|);
  }

  /** A blank row is none. */
  lemma {:induction false} BlankRow(sp: string)
    requires Blanks(sp)
    ensures ParseRow(sp) == Some([])
  {
    LeftIsStripped(sp, "");
    assert sp + "" == sp;
  }

  lemma {:induction false} LineIsParsed(digits: string, gap: string, text: string)
    requires Digits(digits) && gap != "" && Blanks(gap) && Tight(text)
    ensures ParseLine(digits + gap + text) == Some(Line(Decimal(digits), text))
  {
    var s := digits + gap + text;
    assert Blank(gap[0]) && s[|digits|] == gap[0];
    DigitsAre(s, 0, |digits|);
    assert s[..|digits|] == digits && s[|digits|..] == gap + text;
    LeftIsStripped(gap, text);
  }

  /** Digits, white space and a text, between white space if any, are a line: the
      digits its number, the text as it stands. */
  lemma {:induction false} LineRow(sp: string, digits: string, gap: string, text: string, sp': string)
    requires Blanks(sp) && Digits(digits) && gap != "" && Blanks(gap) && Tight(text) && Blanks(sp')
    ensures ParseRow(sp + (digits + gap + text) + sp') == Some([Line(Decimal(digits), text)])
  {
    var s := digits + gap + text;
    assert Digit(s[0]) && !Blank(s[0]) && s[|s| - 1] == text[|text| - 1];
    assert sp + s + sp' == sp + (s + sp');
    assert (s + sp')[0] == s[0];
    LeftIsStripped(sp, s + sp');
    RightIsStripped(s, sp');
    LineIsParsed(digits, gap, text);
  }

  lemma CutAt(s: string, n: nat)
    requires n <= |s|
    ensures s == s[..n] + s[n..]
  {
  }

  lemma {:induction false} LeftPart(s: string) returns (sp: string)
    ensures Blanks(sp) && s == sp + StripLeft(s)
  {
    LeftBorder(s);
    var n := |s| - |StripLeft(s)|;
    sp := s[..n];
    CutAt(s, n);
  }

  lemma {:induction false} RightPart(s: string) returns (sp: string)
    ensures Blanks(sp) && s == StripRight(s) + sp
  {
    RightBorder(s);
    var n := |StripRight(s)|;
    sp := s[n..];
    CutAt(s, n);
  }

  // A row of some parts.
  ghost predicate IsLineRow(row: string, sp: string, digits: string, gap: string, text: string, sp': string) {
    && Blanks(sp) && Digits(digits) && gap != "" && Blanks(gap) && Tight(text) && Blanks(sp')
    && row == sp + (digits + gap + text) + sp'
  }

  // A row is what stripping leaves, between blanks.
  lemma {:induction false} RowBorders(row: string) returns (sp: string, sp': string)
    ensures Blanks(sp) && Blanks(sp') && row == sp + Strip(row) + sp'
  {
    sp := LeftPart(row);
    sp' := RightPart(StripLeft(row));
    Between(row, sp, StripLeft(row), Strip(row), sp');
  }

  lemma {:induction false} StripEnds(row: string)
    requires Strip(row) != ""
    ensures !Blank(Strip(row)[|Strip(row)| - 1])
  {
    BlankIsSpace(Strip(row)[|Strip(row)| - 1]);
  }

  lemma {:induction false} RowParts(row: string)
    returns (sp: string, digits: string, gap: string, text: string, sp': string)
    requires Strip(row) != "" && ParseLine(Strip(row)).Some?
    ensures IsLineRow(row, sp, digits, gap, text, sp')
  {
    sp, sp' := RowBorders(row);
    StripEnds(row);
    digits, gap, text := LineParts(Strip(row));
  }

  /** And no other row is taken. */
  lemma {:induction false} TakenRows(row: string)
    requires ParseRow(row).Some?
    ensures Blanks(row) || exists sp, digits, gap, text, sp' :: IsLineRow(row, sp, digits, gap, text, sp')
  {
    if Strip(row) == "" {
      var sp, sp' := RowBorders(row);
      assert row == sp + sp';
    } else {
      var sp, digits, gap, text, sp' := RowParts(row);
    }
  }

  lemma Between(row: string, sp: string, left: string, s: string, sp': string)
    requires row == sp + left && left == s + sp'
    ensures row == sp + s + sp'
  {
  }

  lemma {:induction false} LineParts(s: string) returns (digits: string, gap: string, text: string)
    requires s != "" && !Blank(s[|s| - 1]) && ParseLine(s).Some?
    ensures Digits(digits) && gap != "" && Blanks(gap) && Tight(text) && s == digits + gap + text
  {
    var d := DigitsEnd(s, 0);
    BlankIsSpace(s[d]);
    digits, gap, text := PartsAt(s, d);
  }

  lemma {:induction false} PartsAt(s: string, d: nat) returns (digits: string, gap: string, text: string)
    requires 0 < d < |s| && (forall p | 0 <= p < d :: Digit(s[p])) && Blank(s[d]) && !Blank(s[|s| - 1])
    ensures Digits(digits) && gap != "" && Blanks(gap) && Tight(text) && s == digits + gap + text
  {
    var rest := s[d..];
    assert rest[|rest| - 1] == s[|s| - 1];
    digits, text := s[..d], StripLeft(rest);
    gap := GapAndText(rest, text);
    CutAt(s, d);
    Between(s, digits, rest, gap, text);
  }

  lemma {:induction false} GapAndText(rest: string, text: string) returns (gap: string)
    requires rest != "" && Blank(rest[0]) && !Blank(rest[|rest| - 1]) && text == StripLeft(rest)
    ensures gap != "" && Blanks(gap) && Tight(text) && rest == gap + text
  {
    LeftBorder(rest);
    gap := rest[..|rest| - |text|];
    if text == "" { assert false; }
    assert text[|text| - 1] == rest[|rest| - 1];
  }
}
