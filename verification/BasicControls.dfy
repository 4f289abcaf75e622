/**
 What a listing makes of bytes that no tokenizer wrote, and where it stops.
 */
module BasicControls {
  import opened Common
  import opened BasicText
  import opened Decimals
  import opened BasicTokens
  import opened BasicFile

  // A number as a listing prints it.
  predicate Prints(digits: string, n: nat) {
    digits != "" && (forall p | 0 <= p < |digits| :: Digit(digits[p])) && Decimal(digits) == n
  }

  lemma DecPrints(n: nat)
    ensures Prints(Dec(n), n)
  {
    DecimalOfDec(n);
  }

  /** Byte 0x16 and its two operands are shown as "AT row,column", in decimal; cut
      short, they break the listing off. */
  lemma AtIsShown(row: byte, column: byte, rest: seq<byte>) returns (r: string, c: string)
    ensures Prints(r, row) && Prints(c, column)
    ensures Detok([0x16, row, column] + rest, false) == Prepend("AT " + r + "," + c, Detok(rest, false))
    ensures Detok([0x16], false) == None && Detok([0x16, row], false) == None
  {
    r, c := Dec(row), Dec(column);
    DecPrints(row);
    DecPrints(column);
    assert ([0x16, row, column] + rest)[3..] == rest;
  }

  /** Byte 0x17 and its operand are shown as "TAB column"; bytes 0x10 to 0x14 and
      theirs as "<ctrl", the byte in hexadecimal, and the operand. */
  lemma ControlIsShown(b: byte, operand: byte, rest: seq<byte>) returns (d: string)
    requires b == 0x17 || 0x10 <= b <= 0x14
    ensures Prints(d, operand)
    ensures Detok([b, operand] + rest, false)
         == Prepend(if b == 0x17 then "TAB " + d else "<ctrl1" + [(b + 32) as char] + " " + d + ">", Detok(rest, false))
    ensures Detok([b], false) == None
  {
    d := Dec(operand);
    DecPrints(operand);
    assert ([b, operand] + rest)[2..] == rest;
    if b != 0x17 {
      HexOfControl(b);
      assert "<ctrl" + ['1', (b + 32) as char] + " " + d + ">" == "<ctrl1" + [(b + 32) as char] + " " + d + ">";
    }
  }

  lemma HexOfControl(b: byte)
    requires 0x10 <= b <= 0x14
    ensures Hex2(b) == ['1', (b + 32) as char]
  {
  }

  function HexValue(c: char): nat { if Digit(c) then c as int - 48 else if 'a' <= c <= 'f' then c as int - 87 else 16 }

  /** A byte with no picture, outside strings, is shown in angle brackets as its two
      hexadecimal digits. */
  lemma PlainByteIsShown(b: byte, rest: seq<byte>) returns (h: string)
    requires b < 0x0D || b == 0x0F || b == 0x15 || 0x18 <= b < 0x20 || b == 0x7F || b == 0x80
    ensures |h| == 2 && HexValue(h[0]) < 16 && HexValue(h[1]) < 16 && 16 * HexValue(h[0]) + HexValue(h[1]) == b
    ensures Detok([b] + rest, false) == Prepend("<" + h + ">", Detok(rest, false))
  {
    h := Hex2(b);
    HexDigit(b / 16);
    HexDigit(b % 16);
    assert ([b] + rest)[1..] == rest;
  }

  lemma HexDigit(d: nat)
    requires d < 16
    ensures HexValue("0123456789abcdef"[d]) == d
  {
  }

  /** A line end is not shown, nor a number's marker and the five bytes behind it,
      nor what there is of them. */
  lemma HiddenBytes(rest: seq<byte>, hidden: seq<byte>)
    requires |hidden| <= 5
    ensures Detok([0x0D] + rest, false) == Detok(rest, false)
    ensures |hidden| == 5 ==> Detok([0x0E] + hidden + rest, false) == Detok(rest, false)
    ensures Detok([0x0E] + hidden, false) == Some("")
  {
    assert ([0x0D] + rest)[1..] == rest;
    if |hidden| == 5 {
      assert Drop([0x0E] + hidden + rest, 6) == rest;
    }
    assert Drop([0x0E] + hidden, 6) == [];
  }

  // ---------------------------------------------------- where it stops -----

  // No line can be read at offset e: too few bytes, a number outside 1..9999, a
  // length outside 1..2000, or a body that runs past the end.
  predicate NoLineAt(data: seq<byte>, e: nat) {
    e + 5 > |data| ||
    (var number, length := 256 * data[e] as int + data[e + 1], data[e + 2] as int + 256 * data[e + 3] as int;
     number < 1 || number > 9999 || length < 1 || length > 2000 || e + 4 + length > |data|)
  }

  /** From offset i on, every line that is read has a number in 1..9999 and a body of
      1..2000 bytes, and reading stops at the first place where there is none such. */
  lemma {:induction false} WhereReadingStops(data: seq<byte>, i: nat) returns (e: nat)
    ensures var r := RawFrom(data, i);
            && (forall k | 0 <= k < |r| :: 1 <= r[k].number <= 9999 && 1 <= |r[k].body| <= 2000)
            && e == (if r == [] then i else r[|r| - 1].at + |r[|r| - 1].body|)
            && NoLineAt(data, e)
    decreases |data| - i
  {
    if !Plausible(data, i) {
      e := i;
    } else {
      var next := i + 4 + |RawAt(data, i).body|;
      e := WhereReadingStops(data, next);
      FirstIsGood(data, i);
    }
  }

  lemma FirstIsGood(data: seq<byte>, i: nat)
    requires Plausible(data, i)
    ensures var a := RawAt(data, i);
            1 <= a.number <= 9999 && 1 <= |a.body| <= 2000 && a.at + |a.body| == i + 4 + |a.body|
    ensures RawFrom(data, i) == [RawAt(data, i)] + RawFrom(data, i + 4 + |RawAt(data, i).body|)
  {
  }

  /** A written program is listed whole if and only if its line numbers are in 1..9999
      and no line has more than 2000 bytes. */
  lemma ListedWhole(host: HostFloat, lines: seq<Line>, head: seq<byte>)
    requires AllPlain(lines) && Body(host, lines).Some? && |head| == 128
    requires head[..8] == ['P' as int, 'L' as int, 'U' as int, 'S' as int, '3' as int, 'D' as int, 'O' as int, 'S' as int]
    ensures |List(head + Body(host, lines).value).lines| == |lines| <==>
            forall k | 0 <= k < |lines| ::
              1 <= lines[k].number <= 9999 && Tok(host, lines[k].text).Some? && |Tok(host, lines[k].text).value| <= 2000
  {
    var cs := CodedLines(host, lines);
    ListOfFile(host, lines, head);
    if forall k | 0 <= k < |lines| ::
         1 <= lines[k].number <= 9999 && Tok(host, lines[k].text).Some? && |Tok(host, lines[k].text).value| <= 2000 {
      forall k | 0 <= k < |cs| ensures Listable(cs[k]) {
        assert cs[k] == CodedOf(host, lines[k]);
      }
    }
    if AllListable(cs) {
      forall k | 0 <= k < |lines|
        ensures 1 <= lines[k].number <= 9999 && Tok(host, lines[k].text).Some? && |Tok(host, lines[k].text).value| <= 2000
      {
        assert Listable(cs[k]) && cs[k] == CodedOf(host, lines[k]);
      }
    }
  }
}
