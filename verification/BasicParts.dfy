/**
 A line of BASIC taken apart: what each part of it is tokenised to by itself, and
 when a line is tokenised part by part.
 */
module BasicParts {
  import opened Common
  import opened BasicText
  import opened Decimals
  import opened BasicTokens

  // ------------------------------------------------- where a line splits ----

  predicate NumChar(c: char) { Digit(c) || c == '.' }

  // No word and no number runs across the border of a and b.
  predicate Splits(a: string, b: string) {
    a == "" || b == "" ||
    (!(Alnum(a[|a| - 1]) && Alnum(b[0])) && !(NumChar(a[|a| - 1]) && NumChar(b[0])))
  }

  // REM as a whole word, in any case, outside a string.
  predicate RemAt(text: string, i: nat) {
    && i + 3 <= |text| && Upper(text[i..i + 3]) == "REM"
    && (i == 0 || !Alnum(text[i - 1])) && (i + 3 >= |text| || !Alnum(text[i + 3]))
    && Balanced(text[..i])
  }

  ghost predicate NoRem(text: string) { forall i: nat | i < |text| :: !RemAt(text, i) }

  lemma UpperLetter(c: char)
    requires Letter(UpperOf(c))
    ensures Letter(c) && Alnum(c)
  {
  }

  // A word of letters, in capitals.
  ghost predicate IsWord(name: string) { name != "" && forall p | 0 <= p < |name| :: Letter(name[p]) }

  // Is it spelt at i, in any case, as a whole word?
  predicate SpeltAs(text: string, i: nat, name: string) {
    && i + |name| <= |text| && Upper(text[i..i + |name|]) == name
    && (i == 0 || !Alnum(text[i - 1])) && (i + |name| >= |text| || !Alnum(text[i + |name|]))
  }

  lemma KeywordIsWord(k: nat)
    requires k < COUNT
    ensures IsWord(Keywords(k).name)
  {
    forall p | 0 <= p < |Keywords(k).name| ensures Letter(Keywords(k).name[p]) {
      KeywordLetters(k, p);
    }
    KeywordSize(k);
  }

  // The letters of a word where it is spelt.
  lemma SpeltLetters(text: string, i: nat, name: string, p: nat)
    requires IsWord(name) && p < |name| && i + |name| <= |text| && Upper(text[i..i + |name|]) == name
    ensures Letter(text[i + p])
  {
    assert Upper(text[i..i + |name|])[p] == UpperOf(text[i + p]);
    UpperLetter(text[i + p]);
  }

  lemma NotAcross(a: string, b: string, i: nat, name: string)
    requires Splits(a, b) && IsWord(name) && i < |a| < i + |name| <= |a + b|
    ensures Upper((a + b)[i..i + |name|]) != name
  {
    var t := a + b;
    assert t[|a| - 1] == a[|a| - 1] && t[|a|] == b[0];
    if Upper(t[i..i + |name|]) == name {
      SpeltLetters(t, i, name, |a| - 1 - i);
      SpeltLetters(t, i, name, |a| - i);
    }
  }

  // A word in the front part is one in the whole.
  lemma WordInFront(a: string, b: string, i: nat, name: string)
    requires Splits(a, b) && IsWord(name) && i < |a|
    ensures SpeltAs(a + b, i, name) == SpeltAs(a, i, name)
  {
    var n, t := |name|, a + b;
    if i + n <= |a| {
      assert t[i..i + n] == a[i..i + n];
      if i + n == |a| && b != "" && Upper(a[i..i + n]) == name {
        SpeltLetters(a, i, name, n - 1);
      }
    } else if i + n <= |t| {
      NotAcross(a, b, i, name);
    }
  }

  lemma SliceBehind(a: string, b: string, i: nat, j: nat)
    requires i <= j <= |b|
    ensures (a + b)[|a| + i..|a| + j] == b[i..j]
  {
  }

  lemma WordBehind(a: string, b: string, i: nat, name: string)
    requires Splits(a, b) && IsWord(name) && i < |b|
    ensures SpeltAs(a + b, |a| + i, name) == SpeltAs(b, i, name)
  {
    var n, t := |name|, a + b;
    if i + n <= |b| {
      SliceBehind(a, b, i, i + n);
      if i + n < |b| { assert t[|a| + i + n] == b[i + n]; }
      if i > 0 {
        assert t[|a| + i - 1] == b[i - 1];
      } else if a != "" && Upper(b[i..i + n]) == name {
        SpeltLetters(b, i, name, 0);
        assert t[|a| - 1] == a[|a| - 1];
      }
    }
  }

  lemma KeywordInFront(a: string, b: string, i: nat)
    requires Splits(a, b) && i < |a|
    ensures KeywordAt(a + b, i) == KeywordAt(a, i)
  {
    forall k | 0 <= k < COUNT ensures SpeltHere(a + b, i)[k] == SpeltHere(a, i)[k] {
      KeywordIsWord(k);
      WordInFront(a, b, i, Keywords(k).name);
    }
    assert SpeltHere(a + b, i) == SpeltHere(a, i);
  }

  lemma KeywordBehind(a: string, b: string, i: nat)
    requires Splits(a, b) && i < |b|
    ensures KeywordAt(a + b, |a| + i) == KeywordAt(b, i)
  {
    forall k | 0 <= k < COUNT ensures SpeltHere(a + b, |a| + i)[k] == SpeltHere(b, i)[k] {
      KeywordIsWord(k);
      WordBehind(a, b, i, Keywords(k).name);
    }
    assert SpeltHere(a + b, |a| + i) == SpeltHere(b, i);
  }

  lemma {:induction false} NumberInFront(a: string, b: string, i: nat)
    requires Splits(a, b) && i <= |a| && (i < |a| || (a != "" && NumChar(a[|a| - 1])))
    ensures NumEnd(a + b, i) == NumEnd(a, i)
    decreases |a| - i
  {
    if i < |a| {
      assert (a + b)[i] == a[i];
      if NumChar(a[i]) { NumberInFront(a, b, i + 1); }
    } else if b != "" {
      assert (a + b)[i] == b[0];
    }
  }

  lemma {:induction false} NumberBehind(a: string, b: string, i: nat)
    requires i <= |b|
    ensures NumEnd(a + b, |a| + i) == |a| + NumEnd(b, i)
    decreases |b| - i
  {
    if i < |b| && NumChar(b[i]) { NumberBehind(a, b, i + 1); }
  }

  lemma KindInFront(host: HostFloat, a: string, b: string, s: Spot)
    requires Splits(a, b) && s.at < |a|
    ensures KindAt(a + b, s) == KindAt(a, s) && Next(a + b, s) == Next(a, s)
    ensures Piece(host, a + b, s) == Piece(host, a, s) && PieceText(a + b, s) == PieceText(a, s)
  {
    assert (a + b)[s.at] == a[s.at];
    KeywordInFront(a, b, s.at);
    NumberInFront(a, b, s.at);
    assert KindAt(a + b, s) == KindAt(a, s);
    var t := Next(a, s).at;
    assert (a + b)[s.at..t] == a[s.at..t];
  }

  // The same spot in b and behind a.
  function Behind(a: string, s: Spot): Spot { s.(at := |a| + s.at) }

  function Shifted(kind: Kind, n: nat): Kind { if kind.Number? then Number(n + kind.end) else kind }

  lemma KindAtBehind(a: string, b: string, s: Spot)
    requires Splits(a, b) && s.at < |b|
    ensures KindAt(a + b, Behind(a, s)) == Shifted(KindAt(b, s), |a|)
  {
    assert (a + b)[|a| + s.at] == b[s.at];
    KeywordBehind(a, b, s.at);
    NumberBehind(a, b, s.at);
  }

  lemma NextBehind(a: string, b: string, s: Spot)
    requires Splits(a, b) && s.at < |b|
    ensures Next(a + b, Behind(a, s)) == Behind(a, Next(b, s))
  {
    assert (a + b)[|a| + s.at] == b[s.at];
    KindAtBehind(a, b, s);
  }

  lemma PieceOfNumber(host: HostFloat, text: string, s: Spot, run: string)
    requires s.at < |text| && KindAt(text, s).Number? && text[s.at..KindAt(text, s).end] == run
    ensures NumberRun(run) && Piece(host, text, s) == NumberPiece(host, run)
  {
  }

  lemma PieceBehind(host: HostFloat, a: string, b: string, s: Spot)
    requires Splits(a, b) && s.at < |b|
    ensures Piece(host, a + b, Behind(a, s)) == Piece(host, b, s)
  {
    assert (a + b)[|a| + s.at] == b[s.at];
    KindAtBehind(a, b, s);
    match KindAt(b, s)
    case Number(end) =>
      SliceBehind(a, b, s.at, end);
      PieceOfNumber(host, b, s, b[s.at..end]);
      PieceOfNumber(host, a + b, Behind(a, s), b[s.at..end]);
    case _ =>
  }

  lemma ShownBehind(a: string, b: string, s: Spot)
    requires Splits(a, b) && s.at < |b|
    ensures PieceText(a + b, Behind(a, s)) == PieceText(b, s)
  {
    KindAtBehind(a, b, s);
    NextBehind(a, b, s);
    SliceBehind(a, b, s.at, Next(b, s).at);
  }

  // ------------------------------------------------------ part by part -----

  // Where the tokenizer stands at the end of a text.
  function EndSpot(text: string, s: Spot): (e: Spot)
    requires s.at <= |text|
    ensures e.at == |text|
    decreases |text| - s.at
  {
    if s.at == |text| then s else EndSpot(text, Next(text, s))
  }

  // Token bytes of a front part, its terminator left off, before those of the rest.
  function Chained(front: Option<seq<byte>>, rest: Option<seq<byte>>): Option<seq<byte>> {
    match front
    case None => None
    case Some(t) => if t == [] then None else Prepend(t[..|t| - 1], rest)
  }

  lemma ChainPiece(piece: seq<byte>, front: Option<seq<byte>>, rest: Option<seq<byte>>)
    requires front.Some? ==> front.value != []
    ensures Chained(Prepend(piece, front), rest) == Prepend(piece, Chained(front, rest))
  {
    if front.Some? {
      var t := front.value;
      assert (piece + t)[..|piece + t| - 1] == piece + t[..|t| - 1];
      PrependTwice(piece, t[..|t| - 1], rest);
    }
  }

  lemma {:induction false} FrontFirst(host: HostFloat, a: string, b: string, s: Spot)
    requires Splits(a, b) && s.at <= |a|
    ensures TokFrom(host, a, s).Some? ==> TokFrom(host, a, s).value != []
    ensures TokFrom(host, a + b, s) == Chained(TokFrom(host, a, s), TokFrom(host, a + b, EndSpot(a, s)))
    decreases |a| - s.at
  {
    var rest := TokFrom(host, a + b, EndSpot(a, s));
    if s.at == |a| {
      assert [0x0D][..0] == [];
      PrependNothing(rest);
    } else {
      KindInFront(host, a, b, s);
      FrontFirst(host, a, b, Next(a, s));
      if Piece(host, a, s).Some? {
        ChainPiece(Piece(host, a, s).value, TokFrom(host, a, Next(a, s)), rest);
      }
    }
  }

  lemma {:induction false} ShownFirst(a: string, b: string, s: Spot)
    requires Splits(a, b) && s.at <= |a|
    ensures CanonFrom(a + b, s) == CanonFrom(a, s) + CanonFrom(a + b, EndSpot(a, s))
    decreases |a| - s.at
  {
    if s.at < |a| {
      KindInFront(x => None, a, b, s);
      ShownFirst(a, b, Next(a, s));
    }
  }

  lemma {:induction false} RestBehind(host: HostFloat, a: string, b: string, s: Spot)
    requires Splits(a, b) && s.at <= |b|
    ensures TokFrom(host, a + b, Behind(a, s)) == TokFrom(host, b, s)
    ensures CanonFrom(a + b, Behind(a, s)) == CanonFrom(b, s)
    decreases |b| - s.at
  {
    if s.at < |b| {
      NextBehind(a, b, s);
      PieceBehind(host, a, b, s);
      ShownBehind(a, b, s);
      RestBehind(host, a, b, Next(b, s));
    }
  }

  // ----------------------------------------------- no remark in front ------

  // A word that the tokenizer takes for REM is one.
  lemma RemIsSeen(text: string, s: Spot)
    requires s.at < |text| && KindAt(text, s).Word? && KindAt(text, s).name == "REM" && Balanced(text[..s.at])
    ensures RemAt(text, s.at)
  {
  }

  lemma PrefixQuotes(text: string, i: nat, j: nat)
    requires i <= j <= |text|
    ensures Quotes(text[..j]) == Quotes(text[..i]) + Quotes(text[i..j])
  {
    QuotesOfConcat(text[..i], text[i..j]);
    assert text[..i] + text[i..j] == text[..j];
  }

  lemma NoRemStep(text: string, s: Spot)
    requires NoRem(text) && s.at < |text| && s == Spot(s.at, !Balanced(text[..s.at]), false)
    ensures var t := Next(text, s); t == Spot(t.at, !Balanced(text[..t.at]), false)
  {
    var t := Next(text, s);
    NextAndQuotes(text, s);
    PrefixQuotes(text, s.at, t.at);
    if KindAt(text, s).Word? && KindAt(text, s).name == "REM" {
      RemIsSeen(text, s);
    }
  }

  lemma {:induction false} EndWithoutRem(text: string, s: Spot)
    requires NoRem(text) && s.at <= |text| && s == Spot(s.at, !Balanced(text[..s.at]), false)
    ensures EndSpot(text, s) == Spot(|text|, !Balanced(text), false)
    decreases |text| - s.at
  {
    if s.at == |text| {
      assert text[..s.at] == text;
    } else {
      NoRemStep(text, s);
      EndWithoutRem(text, Next(text, s));
    }
  }

  /** A line is tokenised, and shown, part by part: wherever no word and no number
      runs across, and the front part closes its strings and has no remark. */
  lemma TokOfParts(host: HostFloat, a: string, b: string)
    requires Splits(a, b) && Balanced(a) && NoRem(a)
    ensures Tok(host, a + b) == Chained(Tok(host, a), Tok(host, b))
    ensures Canon(a + b) == Canon(a) + Canon(b)
  {
    assert a[..0] == "";
    EndWithoutRem(a, START);
    FrontFirst(host, a, b, START);
    ShownFirst(a, b, START);
    RestBehind(host, a, b, START);
    assert Behind(a, START) == EndSpot(a, START);
  }

  // ------------------------------------------------- one part by itself ----

  lemma NamesDiffer(j: nat, k: nat)
    requires j < k < COUNT
    ensures Keywords(j).name != Keywords(k).name
  {
  }

  // At most one word is spelt at a place.
  lemma OneIsSpelt(text: string, i: nat, a: string, b: string)
    requires IsWord(a) && IsWord(b) && SpeltAs(text, i, a) && SpeltAs(text, i, b)
    ensures a == b
  {
    if |a| < |b| {
      SpeltLetters(text, i, b, |a|);
    } else if |b| < |a| {
      SpeltLetters(text, i, a, |b|);
    }
  }

  lemma OtherNotSpelt(text: string, i: nat, j: nat, k: nat)
    requires j < k < COUNT && SpeltAt(text, i, k)
    ensures !SpeltAt(text, i, j)
  {
    KeywordIsWord(j);
    KeywordIsWord(k);
    NamesDiffer(j, k);
    if SpeltAs(text, i, Keywords(j).name) {
      OneIsSpelt(text, i, Keywords(j).name, Keywords(k).name);
    }
  }

  lemma {:induction false} FirstIs(s: seq<bool>, k: nat, r: nat)
    requires k <= r < |s| && s[r] && forall j | k <= j < r :: !s[j]
    ensures FirstFrom(s, k) == r
    decreases r - k
  {
    if k < r { FirstIs(s, k + 1, r); }
  }

  lemma SpeltIsFound(text: string, i: nat, k: nat)
    requires k < COUNT && SpeltAt(text, i, k)
    ensures KeywordAt(text, i) == k
  {
    var here := SpeltHere(text, i);
    forall j | 0 <= j < k ensures !here[j] {
      OtherNotSpelt(text, i, j, k);
    }
    FirstIs(here, 0, k);
  }

  // A word w, in any case, in front of something that is no letter and no digit.
  lemma WordIsTaken(w: string, rest: string, k: nat)
    requires k < COUNT && Upper(w) == Keywords(k).name && (rest == "" || !Alnum(rest[0]))
    ensures w + rest != "" && KindAt(w + rest, START) == Word(Keywords(k).name, Keywords(k).token)
  {
    var n := |Keywords(k).name|;
    assert |Upper(w)| == |w| == n;
    KeywordIsWord(k);
    assert (w + rest)[0..n] == w;
    assert SpeltAt(w + rest, 0, k);
    SpeltIsFound(w + rest, 0, k);
    SpeltLetters(w + rest, 0, Keywords(k).name, 0);
  }

  // The last piece of a line.
  lemma LastPiece(host: HostFloat, text: string, s: Spot)
    requires s.at < |text| && Next(text, s).at == |text|
    ensures TokFrom(host, text, s)
         == match Piece(host, text, s) { case None => None case Some(piece) => Some(piece + [0x0D]) }
    ensures CanonFrom(text, s) == PieceText(text, s)
  {
    assert TokFrom(host, text, Next(text, s)) == Some([0x0D]);
    assert PieceText(text, s) + "" == PieceText(text, s);
  }

  /** A keyword, in any case, is its one token, and is shown in upper case. */
  lemma KeywordTok(host: HostFloat, w: string, k: nat)
    requires k < COUNT && Upper(w) == Keywords(k).name
    ensures Tok(host, w) == Some([Keywords(k).token, 0x0D]) && Canon(w) == Keywords(k).name
  {
    WordIsTaken(w, "", k);
    assert w + "" == w && |Upper(w)| == |w|;
    LastPiece(host, w, START);
    assert [Keywords(k).token] + [0x0D] == [Keywords(k).token, 0x0D];
  }

  // The fourteen keywords and the bytes the machine's ROM has for them.
  lemma TokenBytes(w: Keyword)
    ensures (exists k: nat :: k < COUNT && Keywords(k) == w) <==>
              || w == Keyword("IN", 191) || w == Keyword("OUT", 223) || w == Keyword("TO", 204)
              || w == Keyword("REM", 234) || w == Keyword("FOR", 235) || w == Keyword("NEXT", 243)
              || w == Keyword("LET", 241) || w == Keyword("PRINT", 245) || w == Keyword("POKE", 244)
              || w == Keyword("PEEK", 190) || w == Keyword("BORDER", 231) || w == Keyword("SAVE", 248)
              || w == Keyword("RUN", 247) || w == Keyword("CODE", 175)
  {
    assert Keywords(0) == Keyword("BORDER", 231) && Keywords(1) == Keyword("PRINT", 245);
    assert Keywords(2) == Keyword("CODE", 175) && Keywords(3) == Keyword("PEEK", 190);
    assert Keywords(4) == Keyword("NEXT", 243) && Keywords(5) == Keyword("POKE", 244);
    assert Keywords(6) == Keyword("SAVE", 248) && Keywords(7) == Keyword("OUT", 223);
    assert Keywords(8) == Keyword("REM", 234) && Keywords(9) == Keyword("FOR", 235);
    assert Keywords(10) == Keyword("LET", 241) && Keywords(11) == Keyword("RUN", 247);
    assert Keywords(12) == Keyword("IN", 191) && Keywords(13) == Keyword("TO", 204);
  }

  lemma {:induction false} WholeRun(run: string, i: nat)
    requires NumberRun(run) && i <= |run|
    ensures NumEnd(run, i) == |run|
    decreases |run| - i
  {
    if i < |run| { WholeRun(run, i + 1); }
  }

  lemma DigitIsNoWord(run: string)
    requires run != "" && Digit(run[0])
    ensures KeywordAt(run, 0) == COUNT
  {
    var k := KeywordAt(run, 0);
    if k < COUNT {
      KeywordIsWord(k);
      SpeltLetters(run, 0, Keywords(k).name, 0);
    }
  }

  lemma DigitsPiece(host: HostFloat, run: string)
    requires run != "" && forall i | 0 <= i < |run| :: Digit(run[i])
    ensures KindAt(run, START) == Number(|run|)
    ensures Piece(host, run, START) == Some(Bytes(run) + Payload(Decimal(run)))
  {
    DigitIsNoWord(run);
    WholeRun(run, 0);
    assert run[0..|run|] == run;
    PieceOfNumber(host, run, START, run);
  }

  /** A run of digits is its characters, and behind them, for a value up to 65535, the
      marker 14 and five bytes: 0, 0, the low byte, the high byte, 0. */
  lemma NumberTok(host: HostFloat, run: string)
    requires run != "" && forall i | 0 <= i < |run| :: Digit(run[i])
    ensures var v := Decimal(run);
            Tok(host, run)
            == Some(Bytes(run) + (if v <= 65535 then [14, 0, 0, v % 256, v / 256, 0] else []) + [0x0D])
    ensures Canon(run) == run
  {
    DigitsPiece(host, run);
    LastPiece(host, run, START);
    assert run[0..|run|] == run;
  }

  /** With one dot it is its characters and the payload of the value the host gives it,
      and refused when there is none; with more dots it is refused. */
  lemma DottedTok(host: HostFloat, run: string)
    requires run != "" && Digit(run[0]) && NumberRun(run) && Dots(run) > 0
    ensures Tok(host, run)
         == if Dots(run) == 1 && host(run).Some? then
              var v := host(run).value;
              Some(Bytes(run) + (if v <= 65535 then [14, 0, 0, v % 256, v / 256, 0] else []) + [0x0D])
            else None
  {
    DigitIsNoWord(run);
    WholeRun(run, 0);
    assert run[0..|run|] == run;
    PieceOfNumber(host, run, START, run);
    if forall i | 0 <= i < |run| :: Digit(run[i]) {
      DigitsHaveNoDots(run);
    }
    LastPiece(host, run, START);
  }

  // One character copied.
  lemma CopyStep(host: HostFloat, text: string, s: Spot)
    requires s.at < |text| && KindAt(text, s) == Copy
    ensures var c, t := text[s.at], Next(text, s);
            && t == Spot(s.at + 1, s.inString != (c == '"'), s.afterRem)
            && TokFrom(host, text, s) == (if c as int < 256 then Prepend([c as byte], TokFrom(host, text, t)) else None)
            && CanonFrom(text, s) == [c] + CanonFrom(text, t)
  {
    assert text[s.at..s.at + 1] == [text[s.at]];
  }

  // The bytes of a text that is copied to the end of its line; None when a character
  // has no byte.
  function Copied(t: string): Option<seq<byte>> { if EightBit(t) then Some(Bytes(t) + [0x0D]) else None }

  lemma CopiedMore(t: string)
    requires t != ""
    ensures Copied(t) == if t[0] as int < 256 then Prepend([t[0] as byte], Copied(t[1..])) else None
  {
    assert forall p | 1 <= p < |t| :: t[p] == t[1..][p - 1];
    if EightBit(t) {
      assert Bytes(t) == [t[0] as byte] + Bytes(t[1..]);
      assert [t[0] as byte] + (Bytes(t[1..]) + [0x0D]) == Bytes(t) + [0x0D];
    }
  }

  lemma CopiedNothing()
    ensures Copied("") == Some([0x0D])
  {
    assert Bytes("") + [0x0D] == [0x0D];
  }

  lemma SliceSteps(text: string, i: nat)
    requires i < |text|
    ensures text[i..] != "" && text[i..][0] == text[i] && text[i..][1..] == text[i + 1..]
    ensures [text[i]] + text[i + 1..] == text[i..]
  {
  }

  lemma {:induction false} StringCopies(host: HostFloat, text: string, i: nat)
    requires i < |text| && text[|text| - 1] == '"'
    requires forall p | i <= p < |text| - 1 :: text[p] != '"'
    ensures TokFrom(host, text, Spot(i, true, false)) == Copied(text[i..])
    ensures CanonFrom(text, Spot(i, true, false)) == text[i..]
    decreases |text| - i
  {
    CopyStep(host, text, Spot(i, true, false));
    SliceSteps(text, i);
    CopiedMore(text[i..]);
    if i < |text| - 1 {
      StringCopies(host, text, i + 1);
    } else {
      CopiedNothing();
      assert text[i + 1..] == "";
    }
  }

  /** A string is its characters, quotes included. */
  lemma StringTok(host: HostFloat, inner: string)
    requires '"' !in inner
    ensures var t := "\"" + inner + "\""; Tok(host, t) == Copied(t) && Canon(t) == t
  {
    var t := "\"" + inner + "\"";
    CopyStep(host, t, START);
    StringCopies(host, t, 1);
    SliceSteps(t, 0);
    CopiedMore(t);
    assert t[0..] == t;
  }

  /** A character that starts no word, number or string is its code. */
  lemma OtherTok(host: HostFloat, c: char)
    requires !Alnum(c) && c != '"'
    ensures Tok(host, [c]) == Copied([c]) && Canon([c]) == [c]
  {
    var k := KeywordAt([c], 0);
    if k < COUNT { KeywordSize(k); }
    CopyStep(host, [c], START);
    CopiedMore([c]);
    CopiedNothing();
    assert [c][1..] == "" && [c] + "" == [c];
  }

  // -------------------------------------------------------- remarks --------

  lemma {:induction false} RemarkCopies(host: HostFloat, text: string, s: Spot)
    requires s.at <= |text| && s.afterRem
    ensures TokFrom(host, text, s) == Copied(text[s.at..]) && CanonFrom(text, s) == text[s.at..]
    decreases |text| - s.at
  {
    if s.at == |text| {
      CopiedNothing();
      assert text[s.at..] == "";
    } else {
      CopyStep(host, text, s);
      SliceSteps(text, s.at);
      CopiedMore(text[s.at..]);
      RemarkCopies(host, text, Next(text, s));
    }
  }

  /** REM, in any case, and what follows it: one token and the text, byte for byte. */
  lemma RemarkTok(host: HostFloat, w: string, rest: string)
    requires Upper(w) == "REM" && (rest == "" || !Alnum(rest[0]))
    ensures Tok(host, w + rest) == (if EightBit(rest) then Some([234] + Bytes(rest) + [0x0D]) else None)
    ensures Canon(w + rest) == "REM" + rest
  {
    var t := w + rest;
    assert |Upper(w)| == |w| == 3;
    assert Keywords(8).name == "REM";
    WordIsTaken(w, rest, 8);
    var s := Next(t, START);
    assert s == Spot(3, false, true);
    assert t[3..] == rest;
    RemarkCopies(host, t, s);
    if EightBit(rest) { assert [234] + (Bytes(rest) + [0x0D]) == [234] + Bytes(rest) + [0x0D]; }
  }

  lemma RemSplits(front: string, w: string, rest: string)
    requires Upper(w) == "REM" && (front == "" || !Alnum(front[|front| - 1]))
    ensures Splits(front, w + rest)
  {
    assert |Upper(w)| == |w| == 3 && UpperOf(w[0]) == 'R';
    UpperLetter(w[0]);
  }

  lemma ChainedSome(a: Option<seq<byte>>, b: Option<seq<byte>>)
    requires a.Some? ==> a.value != []
    ensures Chained(a, b).Some? <==> a.Some? && b.Some?
  {
  }

  /** The text after REM stays text, behind any front part that closes its strings,
      ends at a word's end and has no other REM: it is never tokenised, never refused
      for its dots, and shown with its letters as they were. */
  lemma RemarkStaysText(host: HostFloat, front: string, w: string, rest: string)
    requires Upper(w) == "REM" && (rest == "" || !Alnum(rest[0]))
    requires Balanced(front) && NoRem(front) && (front == "" || !Alnum(front[|front| - 1]))
    ensures var line := front + (w + rest);
            && Tok(host, line)
               == Chained(Tok(host, front), if EightBit(rest) then Some([234] + Bytes(rest) + [0x0D]) else None)
            && (Tok(host, line).Some? <==> Tok(host, front).Some? && EightBit(rest))
            && Canon(line) == Canon(front) + "REM" + rest
  {
    RemSplits(front, w, rest);
    RemarkTok(host, w, rest);
    FrontFirst(host, front, w + rest, START);
    TokOfParts(host, front, w + rest);
    ChainedSome(Tok(host, front), Tok(host, w + rest));
    assert Canon(front) + ("REM" + rest) == Canon(front) + "REM" + rest;
  }

  /** And it is listed so, when its own quotes balance. */
  lemma RemarkIsListed(host: HostFloat, front: string, w: string, rest: string)
    requires Upper(w) == "REM" && (rest == "" || !Alnum(rest[0])) && Balanced(rest) && AllPrintable(front + (w + rest))
    requires Balanced(front) && NoRem(front) && (front == "" || !Alnum(front[|front| - 1]))
    requires Tok(host, front + (w + rest)).Some?
    ensures Detok(Tok(host, front + (w + rest)).value, false) == Some(Canon(front) + "REM" + rest)
  {
    LineCloses(front, w, rest);
    RemarkStaysText(host, front, w, rest);
    DetokUndoesTok(host, front + (w + rest));
  }

  lemma LineCloses(front: string, w: string, rest: string)
    requires Upper(w) == "REM" && Balanced(front) && Balanced(rest)
    ensures Balanced(front + (w + rest))
  {
    QuotesOfConcat(front, w + rest);
    QuotesOfConcat(w, rest);
    RemHasNoQuotes(w);
  }

  lemma RemHasNoQuotes(w: string)
    requires Upper(w) == "REM"
    ensures Quotes(w) == 0
  {
    assert |Upper(w)| == |w|;
    forall p | 0 <= p < |w| ensures w[p] != '"' {
      assert Upper(w)[p] == UpperOf(w[p]) && Letter("REM"[p]);
    }
    NoQuotes(w);
  }
}
