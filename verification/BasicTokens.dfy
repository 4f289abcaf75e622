/**
 One line of BASIC: text to token bytes (tools/make-bas.py) and token bytes to
 text (tools/nextbasic_detok.py), and how far the second undoes the first.
 */
module BasicTokens {
  import opened Common
  import opened BasicText
  import opened Decimals

  // Conversion of a run with one dot: the double nearest to it, cut to a whole
  // number, or None when it overflows.
  type HostFloat = string -> Option<nat>

  function Dots(run: string): nat {
    if run == [] then 0 else (if run[0] == '.' then 1 else 0) + Dots(run[1..])
  }

  // The number a run of digits and dots stands for; None when the converter
  // refuses it.
  function Value(host: HostFloat, run: string): Option<nat>
  {
    if forall i | 0 <= i < |run| :: Digit(run[i]) then Some(Decimal(run))
    else if Dots(run) == 1 then host(run)
    else None
  }

  // Marker and five bytes: the small-integer form, for 16-bit values only.
  function Payload(v: nat): (b: seq<byte>)
    ensures v <= 0xFFFF ==> |b| == 6 && b[0] == 0x0E && b[3] as nat + 256 * b[4] as nat == v
  {
    if v <= 0xFFFF then [0x0E, 0, 0, v % 256, v / 256, 0] else []
  }

  function NumberPiece(host: HostFloat, run: string): Option<seq<byte>>
    requires NumberRun(run)
  {
    match Value(host, run)
    case None => None
    case Some(v) => Some(Bytes(run) + Payload(v))
  }

  // Where the tokenizer stands in a line.
  datatype Spot = Spot(at: nat, inString: bool, afterRem: bool)

  const START := Spot(0, false, false)

  // What the tokenizer takes next: a character copied as it is, keyword number
  // k, or the run of a number.
  datatype Kind = Copy | Word(name: string, token: byte) | Number(end: nat)

  function KindAt(text: string, s: Spot): (r: Kind)
    requires s.at < |text|
    ensures r.Word? ==> s.at < s.at + |r.name| <= |text| && Upper(text[s.at..s.at + |r.name|]) == r.name
    ensures r.Number? ==> s.at < r.end <= |text| && NumberRun(text[s.at..r.end])
    ensures !r.Copy? ==> !s.inString && text[s.at] != '"'
  {
    if text[s.at] == '"' || s.inString || s.afterRem then Copy
    else
      var k := KeywordAt(text, s.at);
      if k < COUNT then (KeywordSize(k); Word(Keywords(k).name, Keywords(k).token))
      else if Digit(text[s.at]) then Number(NumEnd(text, s.at))
      else Copy
  }

  // The spot after it.
  function Next(text: string, s: Spot): (t: Spot)
    requires s.at < |text|
    ensures s.at < t.at <= |text|
  {
    match KindAt(text, s)
    case Copy => Spot(s.at + 1, s.inString != (text[s.at] == '"'), s.afterRem)
    case Word(name, _) => Spot(s.at + |name|, false, name == "REM")
    case Number(end) => Spot(end, false, false)
  }

  // Its token bytes; None when a number or a character above 255 is refused.
  function Piece(host: HostFloat, text: string, s: Spot): Option<seq<byte>>
    requires s.at < |text|
  {
    match KindAt(text, s)
    case Copy => if text[s.at] as int < 256 then Some([text[s.at] as byte]) else None
    case Word(_, token) => Some([token])
    case Number(end) => NumberPiece(host, text[s.at..end])
  }

  // The token bytes of the rest of a line.
  function TokFrom(host: HostFloat, text: string, s: Spot): Option<seq<byte>>
    requires s.at <= |text|
    decreases |text| - s.at
  {
    if s.at == |text| then Some([0x0D])
    else
      match Piece(host, text, s)
      case None => None
      case Some(piece) => Prepend(piece, TokFrom(host, text, Next(text, s)))
  }

  function Tok(host: HostFloat, text: string): Option<seq<byte>> {
    TokFrom(host, text, START)
  }

  function Drop(b: seq<byte>, n: nat): seq<byte> { if n <= |b| then b[n..] else [] }

  // The text of the remaining body bytes; inside tells whether they start
  // within quotes. A string that is still open at the end is closed. None: a
  // control code cut short by the end of the body.
  function Detok(b: seq<byte>, inside: bool): Option<string>
    decreases |b|
  {
    if b == [] then Some(if inside then "\"" else "")
    else if inside then
      if b[0] == 0x22 then Prepend("\"", Detok(b[1..], false)) else Prepend([b[0] as char], Detok(b[1..], true))
    else if b[0] == 0x0D then Detok(b[1..], false)
    else if b[0] == 0x0E then Detok(Drop(b, 6), false)
    else if b[0] == 0x16 then
      if |b| < 3 then None else Prepend("AT " + Dec(b[1]) + "," + Dec(b[2]), Detok(b[3..], false))
    else if b[0] == 0x17 then
      if |b| < 2 then None else Prepend("TAB " + Dec(b[1]), Detok(b[2..], false))
    else if 0x10 <= b[0] <= 0x14 then
      if |b| < 2 then None
      else Prepend("<ctrl" + Hex2(b[0]) + " " + Dec(b[1]) + ">", Detok(b[2..], false))
    else if 0x81 <= b[0] then Prepend(NameOf(b[0]), Detok(b[1..], false))
    else if b[0] == 0x22 then Prepend("\"", Detok(b[1..], true))
    else if 32 <= b[0] < 127 then Prepend([b[0] as char], Detok(b[1..], false))
    else Prepend("<" + Hex2(b[0]) + ">", Detok(b[1..], false))
  }

  // A piece as a listing shows it: a keyword in upper case, all else untouched.
  function PieceText(text: string, s: Spot): string
    requires s.at < |text|
  {
    match KindAt(text, s)
    case Word(name, _) => name
    case _ => text[s.at..Next(text, s).at]
  }

  function CanonFrom(text: string, s: Spot): string
    requires s.at <= |text|
    decreases |text| - s.at
  {
    if s.at == |text| then "" else PieceText(text, s) + CanonFrom(text, Next(text, s))
  }

  function Canon(text: string): string { CanonFrom(text, START) }

  function Quotes(text: string): nat {
    if text == "" then 0 else (if text[0] == '"' then 1 else 0) + Quotes(text[1..])
  }

  predicate Balanced(text: string) { Quotes(text) % 2 == 0 }

  // What the detokeniser adds to a line whose last string is never closed: the
  // line's own terminator, taken for text, and the missing quote.
  function Tail(open: bool): string { if open then "\r\"" else "" }

  // A run of plain characters is printed as it stands.
  lemma {:induction false} DetokPlain(run: string, rest: seq<byte>)
    requires AllPrintable(run) && '"' !in run
    ensures Detok(Bytes(run) + rest, false) == Prepend(run, Detok(rest, false))
  {
    if run == "" {
      assert Bytes(run) + rest == rest;
      assert forall s: string :: "" + s == s;
    } else {
      var b := Bytes(run) + rest;
      DetokPlain(run[1..], rest);
      assert b[1..] == Bytes(run[1..]) + rest;
      PrependTwice([run[0]], run[1..], Detok(rest, false));
      assert [run[0]] + run[1..] == run;
    }
  }

  lemma DetokEnd(inside: bool)
    ensures Detok([0x0D], inside) == Some(Tail(inside))
  {
    assert [0x0D][1..] == [];
    assert ['\r'] + "\"" == "\r\"";
  }

  lemma DetokPayload(v: nat, rest: seq<byte>)
    ensures Detok(Payload(v) + rest, false) == Detok(rest, false)
  {
    var b := Payload(v) + rest;
    if v <= 0xFFFF {
      assert Drop(b, 6) == rest;
    } else {
      assert b == rest;
    }
  }

  // A token is printed as its name.
  lemma DetokToken(token: byte, rest: seq<byte>)
    requires 0x81 <= token
    ensures Detok([token] + rest, false) == Prepend(NameOf(token), Detok(rest, false))
  {
    assert ([token] + rest)[1..] == rest;
  }

  // A number is printed as its digits.
  lemma DetokNumber(run: string, v: nat, rest: seq<byte>)
    requires NumberRun(run)
    ensures Detok(Bytes(run) + Payload(v) + rest, false) == Prepend(run, Detok(rest, false))
  {
    assert (Bytes(run) + Payload(v)) + rest == Bytes(run) + (Payload(v) + rest);
    DetokPlain(run, Payload(v) + rest);
    DetokPayload(v, rest);
  }

  // One character that both tools copy.
  lemma DetokChar(c: char, rest: seq<byte>, inside: bool)
    requires Printable(c)
    ensures Detok([c as byte] + rest, inside) == Prepend([c], Detok(rest, inside != (c == '"')))
  {
    assert ([c as byte] + rest)[1..] == rest;
  }

  lemma {:induction false} QuotesOfConcat(a: string, b: string)
    ensures Quotes(a + b) == Quotes(a) + Quotes(b)
  {
    if a == "" {
      assert a + b == b;
    } else {
      assert (a + b)[1..] == a[1..] + b;
      QuotesOfConcat(a[1..], b);
    }
  }

  lemma {:induction false} NoQuotes(a: string)
    requires '"' !in a
    ensures Quotes(a) == 0
  {
    if a != "" {
      NoQuotes(a[1..]);
    }
  }

  // A keyword is a word of letters and has the token the detokeniser knows.
  lemma WordFacts(text: string, s: Spot)
    requires s.at < |text| && KindAt(text, s).Word?
    ensures var w := KindAt(text, s);
            && 0x81 <= w.token && NameOf(w.token) == w.name
            && forall p | 0 <= p < |w.name| :: Letter(w.name[p])
  {
    var k := KeywordAt(text, s.at);
    KeywordFacts(k);
    forall p | 0 <= p < |Keywords(k).name| ensures Letter(Keywords(k).name[p]) {
      KeywordLetters(k, p);
    }
  }

  lemma LettersHaveNoQuote(part: string, name: string)
    requires Upper(part) == name && forall p | 0 <= p < |name| :: Letter(name[p])
    ensures Quotes(part) == 0
  {
    assert forall p | 0 <= p < |part| :: UpperOf(part[p]) == Upper(part)[p] == name[p];
    NoQuotes(part);
  }

  lemma PieceQuotes(text: string, s: Spot)
    requires s.at < |text| && !KindAt(text, s).Copy?
    ensures Quotes(text[s.at..Next(text, s).at]) == 0
  {
    match KindAt(text, s)
    case Word(name, _) =>
      WordFacts(text, s);
      LettersHaveNoQuote(text[s.at..s.at + |name|], name);
    case Number(end) =>
      NoQuotes(text[s.at..end]);
  }

  // A step goes in or out of a string on a quote only.
  lemma NextAndQuotes(text: string, s: Spot)
    requires s.at < |text|
    ensures var t := Next(text, s);
            t.inString == (s.inString != (Quotes(text[s.at..t.at]) % 2 == 1))
  {
    var part := text[s.at..Next(text, s).at];
    if KindAt(text, s).Copy? {
      assert part == [text[s.at]] && part[1..] == "";
    } else {
      PieceQuotes(text, s);
    }
  }

  // The detokeniser prints one piece as the listing shows it.
  lemma DetokPiece(host: HostFloat, text: string, s: Spot, rest: seq<byte>)
    requires AllPrintable(text) && s.at < |text| && Piece(host, text, s).Some?
    ensures Detok(Piece(host, text, s).value + rest, s.inString)
         == Prepend(PieceText(text, s), Detok(rest, Next(text, s).inString))
  {
    match KindAt(text, s)
    case Copy =>
      DetokChar(text[s.at], rest, s.inString);
      assert text[s.at..s.at + 1] == [text[s.at]];
    case Word(name, token) =>
      WordFacts(text, s);
      DetokToken(token, rest);
    case Number(end) =>
      var run := text[s.at..end];
      DetokNumber(run, Value(host, run).value, rest);
  }

  // Is a string still open at the end of the line?
  predicate OpenAtEnd(text: string, s: Spot)
    requires s.at <= |text|
  {
    s.inString != (Quotes(text[s.at..]) % 2 == 1)
  }

  lemma QuotesSplit(text: string, i: nat, j: nat)
    requires i <= j <= |text|
    ensures Quotes(text[i..]) == Quotes(text[i..j]) + Quotes(text[j..])
  {
    QuotesOfConcat(text[i..j], text[j..]);
    assert text[i..j] + text[j..] == text[i..];
  }

  lemma OpenStays(text: string, s: Spot)
    requires s.at < |text|
    ensures OpenAtEnd(text, Next(text, s)) == OpenAtEnd(text, s)
  {
    NextAndQuotes(text, s);
    OpenParity(text, s, Next(text, s));
  }

  lemma OpenParity(text: string, s: Spot, t: Spot)
    requires s.at <= t.at <= |text| && t.inString == (s.inString != (Quotes(text[s.at..t.at]) % 2 == 1))
    ensures OpenAtEnd(text, t) == OpenAtEnd(text, s)
  {
    QuotesSplit(text, s.at, t.at);
  }

  lemma {:induction false} DetokUndoesTokFrom(host: HostFloat, text: string, s: Spot)
    requires AllPrintable(text) && s.at <= |text| && TokFrom(host, text, s).Some?
    ensures Detok(TokFrom(host, text, s).value, s.inString)
         == Some(CanonFrom(text, s) + Tail(OpenAtEnd(text, s)))
    decreases |text| - s.at
  {
    var tail := Tail(OpenAtEnd(text, s));
    if s.at == |text| {
      DetokEnd(s.inString);
      assert "" + tail == tail;
    } else {
      var t := Next(text, s);
      OpenStays(text, s);
      DetokUndoesTokFrom(host, text, t);
      DetokPiece(host, text, s, TokFrom(host, text, t).value);
      assert PieceText(text, s) + (CanonFrom(text, t) + tail) == (PieceText(text, s) + CanonFrom(text, t)) + tail;
    }
  }

  /** Detokenising a tokenised line gives the line back with its keywords in
      upper case, and nothing more exactly when its quotes balance. */
  lemma DetokUndoesTok(host: HostFloat, text: string)
    requires AllPrintable(text) && Tok(host, text).Some?
    ensures Detok(Tok(host, text).value, false) == Some(Canon(text) + Tail(!Balanced(text)))
    ensures Detok(Tok(host, text).value, false) == Some(Canon(text)) <==> Balanced(text)
  {
    DetokUndoesTokFrom(host, text, START);
    assert text[0..] == text;
    if !Balanced(text) {
      assert |Canon(text) + Tail(true)| == |Canon(text)| + 2;
    } else {
      assert Canon(text) + "" == Canon(text);
    }
  }

  lemma {:induction false} NoDotsAllDigits(run: string)
    requires NumberRun(run) && Dots(run) == 0
    ensures forall i | 0 <= i < |run| :: Digit(run[i])
  {
    if run != "" {
      NoDotsAllDigits(run[1..]);
      assert forall i | 1 <= i < |run| :: run[i] == run[1..][i - 1];
    }
  }

  // The converter takes every run of digits with one dot.
  ghost predicate TakesOneDot(host: HostFloat) {
    forall run: string | run != "" && Digit(run[0]) && NumberRun(run) && Dots(run) == 1 :: host(run).Some?
  }

  // Numbers, as they stand outside strings and remarks, have at most one dot.
  predicate OneDotEach(text: string, s: Spot)
    requires s.at <= |text|
    decreases |text| - s.at
  {
    s.at == |text| ||
    (match KindAt(text, s)
     case Number(end) => Dots(text[s.at..end]) <= 1 && OneDotEach(text, Next(text, s))
     case _ => OneDotEach(text, Next(text, s)))
  }

  lemma NumberStarts(text: string, s: Spot)
    requires s.at < |text| && KindAt(text, s).Number?
    ensures Digit(text[s.at])
  {
  }

  lemma {:induction false} DigitsHaveNoDots(run: string)
    requires forall i | 0 <= i < |run| :: Digit(run[i])
    ensures Dots(run) == 0
  {
    if run != "" {
      DigitsHaveNoDots(run[1..]);
    }
  }

  lemma NumberIsTaken(host: HostFloat, text: string, s: Spot)
    requires TakesOneDot(host) && s.at < |text| && KindAt(text, s).Number?
    ensures Piece(host, text, s).Some? <==> Dots(text[s.at..KindAt(text, s).end]) <= 1
  {
    var run := text[s.at..KindAt(text, s).end];
    NumberStarts(text, s);
    if Dots(run) == 0 {
      NoDotsAllDigits(run);
    } else if forall i | 0 <= i < |run| :: Digit(run[i]) {
      DigitsHaveNoDots(run);
    }
  }

  /** A line of 8-bit text is refused exactly when a number outside strings and
      remarks has more than one dot. */
  lemma {:induction false} RefusedForDotsOnly(host: HostFloat, text: string, s: Spot)
    requires TakesOneDot(host) && EightBit(text) && s.at <= |text|
    ensures TokFrom(host, text, s).Some? <==> OneDotEach(text, s)
    decreases |text| - s.at
  {
    if s.at < |text| {
      RefusedForDotsOnly(host, text, Next(text, s));
      if KindAt(text, s).Number? {
        NumberIsTaken(host, text, s);
      }
    }
  }
}
