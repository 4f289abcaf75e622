/**
 Whole programs: numbered lines framed behind a +3DOS header by make-bas.py, and
 listed from the file again by nextbasic_detok.py.
 */
module BasicFile {
  import opened Common
  import opened BasicText
  import opened BasicTokens

  datatype Line = Line(number: nat, text: string)

  function Word16(lo: byte, hi: byte): (w: nat)
    ensures w <= 0xFFFF
  {
    lo + 256 * hi
  }

  // Big-endian number, little-endian length, token bytes; None when a part is
  // refused or does not fit its two bytes.
  function Framed(host: HostFloat, l: Line): Option<seq<byte>> {
    match Tok(host, l.text)
    case None => None
    case Some(t) =>
      if l.number > 0xFFFF || |t| > 0xFFFF then None
      else Some([l.number / 256, l.number % 256, |t| % 256, |t| / 256] + t)
  }

  function Body(host: HostFloat, lines: seq<Line>): Option<seq<byte>> {
    if lines == [] then Some([])
    else
      match Framed(host, lines[0])
      case None => None
      case Some(b) => Prepend(b, Body(host, lines[1..]))
  }

  const MAGIC: seq<byte> := [0x50, 0x4C, 0x55, 0x53, 0x33, 0x44, 0x4F, 0x53]

  function Sum(b: seq<byte>): nat { if b == [] then 0 else Sum(b[..|b| - 1]) + b[|b| - 1] }

  // The 128 bytes before a body of n bytes.
  ghost predicate IsHeader(h: seq<byte>, n: nat, autostart: Option<int>) {
    && |h| == 128 && h[..8] == MAGIC && h[8] == 0x1A && h[9] == 1 && h[10] == 0 && h[15] == 0
    && Word16(h[11], h[12]) + 0x10000 * Word16(h[13], h[14]) == 128 + n
    && Word16(h[16], h[17]) == n == Word16(h[20], h[21])
    && Word16(h[18], h[19]) == (if autostart.Some? then autostart.value else 0x8000)
    && (forall i | 22 <= i < 127 :: h[i] == 0)
    && h[127] == Sum(h[..127]) % 256
  }

  // A line as it stands in a file: number, offset of the body, and the body.
  datatype Raw = Raw(number: nat, at: nat, body: seq<byte>)

  datatype Listed = Listed(number: nat, at: nat, body: seq<byte>, text: string)

  // Does a plausible line start at offset i?
  predicate Plausible(data: seq<byte>, i: nat) {
    && i + 4 < |data|
    && 1 <= Word16(data[i + 1], data[i]) <= 9999
    && 1 <= Word16(data[i + 2], data[i + 3]) <= 2000
    && i + 4 + Word16(data[i + 2], data[i + 3]) <= |data|
  }

  function RawAt(data: seq<byte>, i: nat): Raw
    requires Plausible(data, i)
  {
    Raw(Word16(data[i + 1], data[i]), i + 4, data[i + 4..i + 4 + Word16(data[i + 2], data[i + 3])])
  }

  // The lines from offset i on, up to the first that is not plausible.
  function RawFrom(data: seq<byte>, i: nat): seq<Raw>
    decreases |data| - i
  {
    if !Plausible(data, i) then []
    else [RawAt(data, i)] + RawFrom(data, i + 4 + |RawAt(data, i).body|)
  }

  // The lines a listing yields one after the other, and whether it comes to its end
  // or breaks off with an error after them.
  datatype Yielded = Yielded(lines: seq<Listed>, whole: bool)

  function Ahead(lines: seq<Listed>, y: Yielded): Yielded { y.(lines := lines + y.lines) }

  function Decoded(raws: seq<Raw>): Yielded {
    if raws == [] then Yielded([], true)
    else
      match Detok(raws[0].body, false)
      case None => Yielded([], false)
      case Some(text) =>
        Ahead([Listed(raws[0].number, raws[0].at, raws[0].body, text)], Decoded(raws[1..]))
  }

  // A file that is not a +3DOS one is an error at once.
  function List(data: seq<byte>): Yielded {
    if |data| >= 8 && data[..8] == MAGIC then Decoded(RawFrom(data, 128)) else Yielded([], false)
  }

  // A line before it is framed.
  datatype Coded = Coded(number: nat, body: seq<byte>)

  predicate Framable(c: Coded) { c.number <= 0xFFFF && 1 <= |c.body| <= 0xFFFF }

  function Frame(c: Coded): seq<byte>
    requires Framable(c)
  {
    [c.number / 256, c.number % 256, |c.body| % 256, |c.body| / 256] + c.body
  }

  ghost predicate AllFramable(cs: seq<Coded>) { forall k | 0 <= k < |cs| :: Framable(cs[k]) }

  ghost function Frames(cs: seq<Coded>): seq<byte>
    requires AllFramable(cs)
  {
    if cs == [] then [] else Frame(cs[0]) + Frames(cs[1..])
  }

  // Is the line one the lister accepts?
  predicate Listable(c: Coded) { 1 <= c.number <= 9999 && |c.body| <= 2000 }

  ghost predicate AllListable(cs: seq<Coded>) { forall k | 0 <= k < |cs| :: Listable(cs[k]) }

  // The listable lines in front, the first of them at offset i.
  function Listing(cs: seq<Coded>, i: nat): seq<Raw> {
    if cs == [] || !Listable(cs[0]) then []
    else [Raw(cs[0].number, i + 4, cs[0].body)] + Listing(cs[1..], i + 4 + |cs[0].body|)
  }

  lemma SplitWord(n: nat)
    requires n <= 0xFFFF
    ensures n / 256 < 256 && Word16(n % 256, n / 256) == n
  {
  }

  // One line with number and body t stands at offset i.
  ghost predicate LineAt(data: seq<byte>, i: nat, number: nat, t: seq<byte>) {
    && t != [] && i + 4 + |t| <= |data|
    && Word16(data[i + 1], data[i]) == number && Word16(data[i + 2], data[i + 3]) == |t|
    && data[i + 4..i + 4 + |t|] == t
  }

  lemma FrameStands(c: Coded, data: seq<byte>, i: nat, rest: seq<byte>)
    requires Framable(c) && i <= |data| && data[i..] == Frame(c) + rest
    ensures LineAt(data, i, c.number, c.body) && data[i + 4 + |c.body|..] == rest
  {
    var f := Frame(c);
    SplitWord(c.number);
    SplitWord(|c.body|);
    assert forall p | 0 <= p < 4 :: data[i + p] == data[i..][p] == f[p];
    assert data[i + 4..i + 4 + |c.body|] == data[i..][4..4 + |c.body|] == c.body;
    assert data[i + 4 + |c.body|..] == data[i..][|f|..] == rest;
  }

  // What the lister makes of it.
  lemma LineIsRaw(c: Coded, data: seq<byte>, i: nat)
    requires LineAt(data, i, c.number, c.body)
    ensures RawFrom(data, i)
         == if Listable(c) then [Raw(c.number, i + 4, c.body)] + RawFrom(data, i + 4 + |c.body|) else []
  {
    assert Plausible(data, i) <==> Listable(c);
    assert Listable(c) ==> RawAt(data, i) == Raw(c.number, i + 4, c.body);
  }

  // The lines stand one behind the other from offset i to the end.
  ghost predicate LinesStand(data: seq<byte>, i: nat, cs: seq<Coded>)
    decreases |cs|
  {
    if cs == [] then i == |data|
    else LineAt(data, i, cs[0].number, cs[0].body) && LinesStand(data, i + 4 + |cs[0].body|, cs[1..])
  }

  lemma {:induction false} FramesStand(cs: seq<Coded>, data: seq<byte>, i: nat)
    requires AllFramable(cs) && i <= |data| && data[i..] == Frames(cs)
    ensures LinesStand(data, i, cs)
  {
    if cs == [] {
      assert |data[i..]| == |data| - i;
    } else {
      FrameStands(cs[0], data, i, Frames(cs[1..]));
      FramesStand(cs[1..], data, i + 4 + |cs[0].body|);
    }
  }

  lemma {:induction false} RawOfLines(cs: seq<Coded>, data: seq<byte>, i: nat)
    requires LinesStand(data, i, cs)
    ensures RawFrom(data, i) == Listing(cs, i)
  {
    if cs != [] {
      LineIsRaw(cs[0], data, i);
      if Listable(cs[0]) {
        RawOfLines(cs[1..], data, i + 4 + |cs[0].body|);
      }
    }
  }

  /** Lines of a file, found again from any offset. */
  lemma RawOfFrames(cs: seq<Coded>, data: seq<byte>, i: nat)
    requires AllFramable(cs) && i <= |data| && data[i..] == Frames(cs)
    ensures RawFrom(data, i) == Listing(cs, i)
  {
    FramesStand(cs, data, i);
    RawOfLines(cs, data, i);
  }

  // A listing is a prefix of the lines; the line after it is not listable.
  lemma {:induction false} ListingStops(cs: seq<Coded>, i: nat)
    ensures |Listing(cs, i)| <= |cs|
    ensures |Listing(cs, i)| < |cs| ==> !Listable(cs[|Listing(cs, i)|])
  {
    if cs != [] && Listable(cs[0]) {
      ListingStops(cs[1..], i + 4 + |cs[0].body|);
    }
  }

  lemma {:induction false} ListingAt(cs: seq<Coded>, i: nat, k: nat)
    requires k < |Listing(cs, i)|
    ensures k < |cs| && Listable(cs[k])
    ensures Listing(cs, i)[k].number == cs[k].number && Listing(cs, i)[k].body == cs[k].body
    decreases k
  {
    if k > 0 {
      ListingAt(cs[1..], i + 4 + |cs[0].body|, k - 1);
    }
  }

  // ---- tokenised lines ----

  ghost predicate AllPlain(lines: seq<Line>) { forall k | 0 <= k < |lines| :: AllPrintable(lines[k].text) }

  lemma TokIsNotEmpty(host: HostFloat, text: string, s: Spot)
    requires s.at <= |text| && TokFrom(host, text, s).Some?
    ensures TokFrom(host, text, s).value != []
    decreases |text| - s.at
  {
  }

  function CodedOf(host: HostFloat, l: Line): Coded
    requires Tok(host, l.text).Some?
  {
    Coded(l.number, Tok(host, l.text).value)
  }

  ghost function CodedLines(host: HostFloat, lines: seq<Line>): (cs: seq<Coded>)
    requires Body(host, lines).Some?
    ensures |cs| == |lines|
    ensures forall k | 0 <= k < |cs| :: Framed(host, lines[k]).Some? && cs[k] == CodedOf(host, lines[k])
  {
    if lines == [] then [] else [CodedOf(host, lines[0])] + CodedLines(host, lines[1..])
  }

  lemma LineIsFramable(host: HostFloat, l: Line)
    requires Framed(host, l).Some?
    ensures Framable(CodedOf(host, l)) && Framed(host, l) == Some(Frame(CodedOf(host, l)))
  {
    TokIsNotEmpty(host, l.text, START);
  }

  lemma {:induction false} BodyIsFrames(host: HostFloat, lines: seq<Line>)
    requires Body(host, lines).Some?
    ensures AllFramable(CodedLines(host, lines)) && Body(host, lines) == Some(Frames(CodedLines(host, lines)))
  {
    if lines != [] {
      LineIsFramable(host, lines[0]);
      BodyIsFrames(host, lines[1..]);
      FramesCons(CodedOf(host, lines[0]), CodedLines(host, lines[1..]));
    }
  }

  lemma FramesCons(c: Coded, cs: seq<Coded>)
    requires Framable(c) && AllFramable(cs)
    ensures AllFramable([c] + cs) && Frames([c] + cs) == Frame(c) + Frames(cs)
  {
    assert ([c] + cs)[1..] == cs;
  }

  // Raw lines that all decode are all listed, with what they decode to.
  lemma {:induction false} AllDecode(raws: seq<Raw>, texts: seq<string>)
    requires |raws| == |texts| && forall k | 0 <= k < |raws| :: Detok(raws[k].body, false) == Some(texts[k])
    ensures var y := Decoded(raws);
            && y.whole && |y.lines| == |raws|
            && forall k | 0 <= k < |raws| ::
                 y.lines[k] == Listed(raws[k].number, raws[k].at, raws[k].body, texts[k])
  {
    if raws != [] {
      AllDecode(raws[1..], texts[1..]);
    }
  }

  // What the listing shows for a text.
  function ShownText(text: string): string { Canon(text) + Tail(!Balanced(text)) }

  ghost function ShownTexts(lines: seq<Line>, n: nat): (t: seq<string>)
    requires n <= |lines|
    ensures |t| == n && forall k | 0 <= k < n :: t[k] == ShownText(lines[k].text)
  {
    seq(n, k requires 0 <= k < n => ShownText(lines[k].text))
  }

  lemma CodedDecodes(host: HostFloat, l: Line)
    requires AllPrintable(l.text) && Tok(host, l.text).Some?
    ensures Detok(CodedOf(host, l).body, false) == Some(ShownText(l.text))
  {
    DetokUndoesTok(host, l.text);
  }

  // The entry a line makes.
  ghost predicate ListedAs(host: HostFloat, l: Line, e: Listed) {
    && e.number == l.number && Some(e.body) == Tok(host, l.text) && e.text == ShownText(l.text)
  }

  lemma ListingDecodes(host: HostFloat, lines: seq<Line>)
    requires AllPlain(lines) && Body(host, lines).Some?
    ensures var raws := Listing(CodedLines(host, lines), 128);
            var y := Decoded(raws);
            && y.whole && |y.lines| == |raws| <= |lines|
            && forall k | 0 <= k < |y.lines| :: ListedAs(host, lines[k], y.lines[k])
  {
    var cs := CodedLines(host, lines);
    var raws := Listing(cs, 128);
    ListingStops(cs, 128);
    var texts := ShownTexts(lines, |raws|);
    forall k | 0 <= k < |raws|
      ensures raws[k].number == cs[k].number && raws[k].body == cs[k].body
      ensures Detok(raws[k].body, false) == Some(texts[k])
    {
      ListingAt(cs, 128, k);
      CodedDecodes(host, lines[k]);
    }
    AllDecode(raws, texts);
  }

  /** Listing a written file gives the lines, as they are shown, up to the first
      that is not listable, so the whole program exactly when all its lines are. */
  lemma ListOfFile(host: HostFloat, lines: seq<Line>, head: seq<byte>)
    requires AllPlain(lines) && Body(host, lines).Some? && |head| == 128 && head[..8] == MAGIC
    ensures var y := List(head + Body(host, lines).value);
            var cs := CodedLines(host, lines);
            && y.whole && |y.lines| <= |lines|
            && (forall k | 0 <= k < |y.lines| :: ListedAs(host, lines[k], y.lines[k]))
            && (|y.lines| < |lines| ==> !Listable(cs[|y.lines|]))
            && (|y.lines| == |lines| <==> AllListable(cs))
  {
    var data, cs := head + Body(host, lines).value, CodedLines(host, lines);
    BodyIsFrames(host, lines);
    Behind(head, Body(host, lines).value);
    RawOfFrames(cs, data, 128);
    ListingStops(cs, 128);
    ListingDecodes(host, lines);
    WholeListing(cs);
  }

  lemma WholeListing(cs: seq<Coded>)
    ensures |Listing(cs, 128)| == |cs| <==> AllListable(cs)
  {
    ListingStops(cs, 128);
    if |Listing(cs, 128)| == |cs| {
      forall k | 0 <= k < |cs| ensures Listable(cs[k]) {
        ListingAt(cs, 128, k);
      }
    }
  }

  lemma Behind(head: seq<byte>, body: seq<byte>)
    requires |head| == 128
    ensures (head + body)[..8] == head[..8] && (head + body)[128..] == body
  {
  }

  // Each raw line stands where its offset says, and starts where the one before it
  // ends.
  lemma {:induction false} OffsetsPointAtBodies(data: seq<byte>, i: nat, k: nat)
    requires k < |RawFrom(data, i)|
    ensures var r := RawFrom(data, i);
            && r[k].at >= 4 && LineAt(data, r[k].at - 4, r[k].number, r[k].body)
            && r[k].at == if k == 0 then i + 4 else r[k - 1].at + |r[k - 1].body| + 4
    decreases k
  {
    if k > 0 {
      OffsetsPointAtBodies(data, i + 4 + |RawAt(data, i).body|, k - 1);
    }
  }

  /** Whatever the file, what is yielded are its plausible lines in order, each with
      the text it decodes to; all of them, or those before the first that fails. */
  lemma {:induction false} YieldedAreDecoded(raws: seq<Raw>)
    ensures var y := Decoded(raws);
            && |y.lines| <= |raws| && (y.whole <==> |y.lines| == |raws|)
            && (forall k | 0 <= k < |y.lines| ::
                  && y.lines[k].number == raws[k].number && y.lines[k].at == raws[k].at
                  && y.lines[k].body == raws[k].body && Detok(raws[k].body, false) == Some(y.lines[k].text))
            && (!y.whole ==> Detok(raws[|y.lines|].body, false) == None)
  {
    if raws != [] && Detok(raws[0].body, false).Some? {
      YieldedAreDecoded(raws[1..]);
    }
  }
}
