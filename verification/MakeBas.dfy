/**
 tools/make-bas.py as it runs: loops over positions that append to a buffer, and a
 header filled in place, each proved against the functions of the other modules.
 */
module MakeBas {
  import opened Common
  import opened BasicText
  import opened Decimals
  import opened BasicTokens
  import opened BasicFile
  import opened BasicSource

  lemma PieceOut(host: HostFloat, text: string, s: Spot, out: seq<byte>)
    requires s.at < |text| && Tok(host, text) == Prepend(out, TokFrom(host, text, s))
    ensures Piece(host, text, s).None? ==> Tok(host, text) == None
    ensures Piece(host, text, s).Some? ==>
              Tok(host, text) == Prepend(out + Piece(host, text, s).value, TokFrom(host, text, Next(text, s)))
  {
    if Piece(host, text, s).Some? {
      PrependTwice(out, Piece(host, text, s).value, TokFrom(host, text, Next(text, s)));
    }
  }

  method FindKeyword(text: string, i: nat) returns (k: nat)
    ensures k == KeywordAt(text, i)
  {
    k := 0;
    while k < COUNT && !SpeltAt(text, i, k)
      invariant k <= COUNT && KeywordAt(text, i) == FirstFrom(SpeltHere(text, i), k)
    {
      k := k + 1;
    }
  }

  // The end of the number that starts at i, and its bytes.
  method TakeNumber(host: HostFloat, text: string, i: nat) returns (j: nat, bytes: Option<seq<byte>>)
    requires i <= |text|
    ensures j == NumEnd(text, i) && bytes == NumberPiece(host, text[i..j])
  {
    j := i;
    while j < |text| && (Digit(text[j]) || text[j] == '.')
      invariant i <= j <= |text| && NumEnd(text, i) == NumEnd(text, j)
    {
      j := j + 1;
    }
    var run := text[i..j];
    match Value(host, run) {
      case None => bytes := None;
      case Some(v) => bytes := Some(Bytes(run) + Payload(v));
    }
  }

  // Of the three branches below, the one that is taken is the kind at the spot.
  lemma KindTaken(text: string, s: Spot)
    requires s.at < |text|
    ensures var live := text[s.at] != '"' && !s.inString && !s.afterRem;
            var k := KeywordAt(text, s.at);
            KindAt(text, s) == if live && k < COUNT then Word(Keywords(k).name, Keywords(k).token)
                               else if live && Digit(text[s.at]) then Number(NumEnd(text, s.at))
                               else Copy
  {
  }

  method TokenizeLine(host: HostFloat, text: string) returns (r: Option<seq<byte>>)
    ensures r == Tok(host, text)
  {
    var out: seq<byte> := [];
    var i, inString, afterRem := 0, false, false;
    PrependNothing(Tok(host, text));
    while i < |text|
      invariant i <= |text|
      invariant Tok(host, text) == Prepend(out, TokFrom(host, text, Spot(i, inString, afterRem)))
    {
      ghost var s := Spot(i, inString, afterRem);
      PieceOut(host, text, s, out);
      KindTaken(text, s);
      var c := text[i];
      var k := COUNT;
      if c != '"' && !inString && !afterRem {
        k := FindKeyword(text, i);
      }
      if k < COUNT {
        KeywordSize(k);
        out := out + [Keywords(k).token];
        i := i + |Keywords(k).name|;
        afterRem := Keywords(k).name == "REM";
      } else if c != '"' && !inString && !afterRem && Digit(c) {
        var j, bytes := TakeNumber(host, text, i);
        if bytes.None? {
          return None;
        }
        out := out + bytes.value;
        i := j;
      } else {
        if c as int >= 256 {
          return None;
        }
        out := out + [c as byte];
        if c == '"' {
          inString := !inString;
        }
        i := i + 1;
      }
      assert Next(text, s) == Spot(i, inString, afterRem);
    }
    r := Some(out + [0x0D]);
  }

  // The bytes of one row, none for a blank one.
  function RowBytes(host: HostFloat, row: string): Option<seq<byte>> {
    match ParseRow(row)
    case None => None
    case Some(l) => if l == [] then Some([]) else Framed(host, l[0])
  }

  function RowsFrom(host: HostFloat, rows: seq<string>, n: nat): Option<seq<byte>>
    requires n <= |rows|
    decreases |rows| - n
  {
    if n == |rows| then Some([])
    else
      match RowBytes(host, rows[n])
      case None => None
      case Some(b) => Prepend(b, RowsFrom(host, rows, n + 1))
  }

  lemma BodyCons(host: HostFloat, l: Line, rest: seq<Line>)
    ensures Body(host, [l] + rest) == match Framed(host, l) { case None => None case Some(b) => Prepend(b, Body(host, rest)) }
  {
    assert ([l] + rest)[1..] == rest;
  }

  // Framing row by row is parsing everything first and framing then.
  lemma {:induction false} RowByRow(host: HostFloat, rows: seq<string>, n: nat)
    requires n <= |rows|
    ensures RowsFrom(host, rows, n)
         == match ParseLines(rows[n..]) { case None => None case Some(lines) => Body(host, lines) }
    decreases |rows| - n
  {
    if n < |rows| {
      var more := rows[n + 1..];
      RowByRow(host, rows, n + 1);
      assert rows[n..][1..] == more;
      if ParseRow(rows[n]).Some? && ParseLines(more).Some? {
        var l, rest := ParseRow(rows[n]).value, ParseLines(more).value;
        PrependNothing(RowsFrom(host, rows, n + 1));
        if l == [] {
          assert l + rest == rest;
        } else {
          BodyCons(host, l[0], rest);
        }
      }
    }
  }

  method Frame(host: HostFloat, l: Line) returns (r: Option<seq<byte>>)
    ensures r == Framed(host, l)
  {
    var t := TokenizeLine(host, l.text);
    if t.None? || l.number > 0xFFFF || |t.value| > 0xFFFF {
      return None;
    }
    r := Some([l.number / 256, l.number % 256, |t.value| % 256, |t.value| / 256] + t.value);
  }

  method TokenizeRow(host: HostFloat, row: string) returns (r: Option<seq<byte>>)
    ensures r == RowBytes(host, row)
  {
    var parsed := ParseRow(row);
    if parsed.None? {
      return None;
    }
    if parsed.value == [] {
      return Some([]);
    }
    r := Frame(host, parsed.value[0]);
  }

  // What one more row adds to the body; a refused one ends it.
  lemma {:induction false} NextRow(host: HostFloat, rows: seq<string>, body: seq<byte>, n: nat)
    requires n < |rows|
    ensures Prepend(body, RowsFrom(host, rows, n))
         == match RowBytes(host, rows[n])
            case None => None
            case Some(b) => Prepend(body + b, RowsFrom(host, rows, n + 1))
  {
    match RowBytes(host, rows[n])
    case None =>
    case Some(b) => PrependTwice(body, b, RowsFrom(host, rows, n + 1));
  }

  lemma {:induction false} NoMoreRows(host: HostFloat, rows: seq<string>, body: seq<byte>)
    ensures Prepend(body, RowsFrom(host, rows, |rows|)) == Some(body)
  {
    assert body + [] == body;
  }

  method TokenizeRows(host: HostFloat, rows: seq<string>) returns (r: Option<seq<byte>>)
    ensures r == RowsFrom(host, rows, 0)
  {
    var body: seq<byte> := [];
    var n := 0;
    PrependNothing(RowsFrom(host, rows, 0));
    while n < |rows|
      invariant n <= |rows| && RowsFrom(host, rows, 0) == Prepend(body, RowsFrom(host, rows, n))
    {
      NextRow(host, rows, body, n);
      var bytes := TokenizeRow(host, rows[n]);
      if bytes.None? {
        return None;
      }
      body := body + bytes.value;
      n := n + 1;
    }
    NoMoreRows(host, rows, body);
    r := Some(body);
  }

  method TokenizeProgram(host: HostFloat, source: string) returns (r: Option<seq<byte>>)
    ensures r == Program(host, source)
  {
    var rows := SplitLines(source);
    RowByRow(host, rows, 0);
    assert rows[0..] == rows;
    r := TokenizeRows(host, rows);
  }

  // Little-endian 16 bits into two bytes of the header.
  method Put16(h: array<byte>, at: nat, w: nat)
    requires at + 2 <= h.Length && w <= 0xFFFF
    modifies h
    ensures Word16(h[at], h[at + 1]) == w
    ensures forall i | 0 <= i < h.Length && i != at && i != at + 1 :: h[i] == old(h[i])
  {
    h[at], h[at + 1] := w % 256, w / 256;
  }

  method Checksum(h: array<byte>) returns (c: byte)
    requires h.Length == 128
    ensures c == Sum(h[..127]) % 256
  {
    var total: nat := 0;
    for i := 0 to 127
      invariant total == Sum(h[..i])
    {
      assert h[..i + 1][..i] == h[..i];
      total := h[i] as nat + total;
    }
    c := total % 256;
  }

  // The fields, filled in place; the checksum comes last.
  method FillHeader(h: array<byte>, n: nat, auto: nat)
    requires h.Length == 128 && n <= 0xFFFF && auto <= 0xFFFF && forall i | 0 <= i < 128 :: h[i] == 0
    modifies h
    ensures forall i | 0 <= i < 8 :: h[i] == MAGIC[i]
    ensures h[8] == 0x1A && h[9] == 1 && h[10] == 0 && h[15] == 0
    ensures Word16(h[11], h[12]) + 0x10000 * Word16(h[13], h[14]) == 128 + n
    ensures Word16(h[16], h[17]) == n == Word16(h[20], h[21]) && Word16(h[18], h[19]) == auto
    ensures forall i | 22 <= i < 127 :: h[i] == 0
  {
    forall i | 0 <= i < 8 {
      h[i] := MAGIC[i];
    }
    h[8], h[9], h[10] := 0x1A, 1, 0;
    Put16(h, 11, (128 + n) % 0x10000);
    Put16(h, 13, (128 + n) / 0x10000);
    h[15] := 0;
    Put16(h, 16, n);
    Put16(h, 18, auto);
    Put16(h, 20, n);
  }

  // The whole file. None: a length or the autostart line does not fit its field.
  method MakeP3dosBasic(body: seq<byte>, autostart: Option<int>) returns (file: Option<seq<byte>>)
    ensures file.None? <==> |body| > 0xFFFF || (autostart.Some? && !(0 <= autostart.value <= 0xFFFF))
    ensures file.Some? ==> |file.value| == 128 + |body| && file.value[128..] == body
    ensures file.Some? ==> IsHeader(file.value[..128], |body|, autostart)
  {
    var n := |body|;
    if n > 0xFFFF || (autostart.Some? && !(0 <= autostart.value <= 0xFFFF)) {
      return None;
    }
    var h := new byte[128](_ => 0);
    FillHeader(h, n, if autostart.Some? then autostart.value else 0x8000);
    ghost var front := h[..127];
    h[127] := Checksum(h);
    assert h[..127] == front;
    assert h[..][..127] == front && h[..][..8] == MAGIC;
    file := Some(h[..] + body);
    assert file.value[..128] == h[..];
  }

}
