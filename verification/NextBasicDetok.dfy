/**
 tools/nextbasic_detok.py as it runs: a loop over the file's lines, and within a
 line a loop over its bytes that runs ahead to the closing quote of a string.
 */
module NextBasicDetok {
  import opened Common
  import opened BasicText
  import opened Decimals
  import opened BasicTokens
  import opened BasicFile

  // Latin-1 decoding.
  function Chars(b: seq<byte>): (s: string)
    ensures |s| == |b| && forall i | 0 <= i < |b| :: s[i] as int == b[i]
  {
    seq(|b|, i requires 0 <= i < |b| => b[i] as char)
  }

  // A string from its first character on, up to the quote at k or the end.
  lemma {:induction false} DetokString(b: seq<byte>, j: nat, k: nat)
    requires j <= k <= |b| && 0x22 !in b[j..k] && (k == |b| || b[k] == 0x22)
    ensures Detok(b[j..], true) == Prepend(Chars(b[j..k]) + "\"", Detok(Drop(b, k + 1), false))
    decreases k - j
  {
    if j == k {
      assert Chars(b[j..k]) + "\"" == "\"";
      if k < |b| {
        assert b[k..][1..] == b[k + 1..];
      } else {
        assert "\"" + "" == "\"";
      }
    } else {
      assert b[j] == b[j..k][0] && b[j..][1..] == b[j + 1..] && b[j + 1..k] == b[j..k][1..];
      DetokString(b, j + 1, k);
      PrependTwice([b[j] as char], Chars(b[j + 1..k]) + "\"", Detok(Drop(b, k + 1), false));
      assert [b[j] as char] + (Chars(b[j + 1..k]) + "\"") == Chars(b[j..k]) + "\"";
    }
  }

  // What the branch for byte j prints and where it goes on; None when it reads
  // past the end. A string is not among its branches.
  method Simple(b: seq<byte>, j: nat) returns (shown: Option<string>, next: nat)
    requires j < |b| && b[j] != 0x22
    ensures next > j
    ensures Detok(b[j..], false) == match shown { case None => None case Some(s) => Prepend(s, Detok(Drop(b, next), false)) }
  {
    var c := b[j];
    assert b[j..][1..] == b[j + 1..];
    PrependNothing(Detok(Drop(b, j + 1), false));
    PrependNothing(Detok(Drop(b, j + 6), false));
    if c == 0x0D {
      shown, next := Some(""), j + 1;
    } else if c == 0x0E {
      assert Drop(b[j..], 6) == Drop(b, j + 6);
      shown, next := Some(""), j + 6;
    } else if c == 0x16 {
      next := j + 3;
      if |b| < next {
        return None, next;
      }
      assert b[j..][3..] == b[j + 3..];
      shown := Some("AT " + Dec(b[j + 1]) + "," + Dec(b[j + 2]));
    } else if c == 0x17 || 0x10 <= c <= 0x14 {
      next := j + 2;
      if |b| < next {
        return None, next;
      }
      assert b[j..][2..] == b[j + 2..];
      shown := Some(if c == 0x17 then "TAB " + Dec(b[j + 1]) else "<ctrl" + Hex2(c) + " " + Dec(b[j + 1]) + ">");
    } else {
      next := j + 1;
      shown := Some(if 0x81 <= c then NameOf(c) else if 32 <= c < 127 then [c as char] else "<" + Hex2(c) + ">");
    }
  }

  // A string with its quotes, closed at k or at the end.
  lemma DetokLiteral(b: seq<byte>, j: nat, k: nat, shown: string)
    requires j < k <= |b| && b[j] == 0x22 && 0x22 !in b[j + 1..k] && (k == |b| || b[k] == 0x22)
    requires shown == "\"" + Chars(b[j + 1..k]) + "\""
    ensures Detok(b[j..], false) == Prepend(shown, Detok(Drop(b, k + 1), false))
  {
    var inner := Chars(b[j + 1..k]);
    DetokString(b, j + 1, k);
    assert b[j..][1..] == b[j + 1..];
    PrependTwice("\"", inner + "\"", Detok(Drop(b, k + 1), false));
    assert "\"" + (inner + "\"") == shown;
  }

  // The string that byte j opens, up to its closing quote or the end.
  method Literal(b: seq<byte>, j: nat) returns (shown: string, next: nat)
    requires j < |b| && b[j] == 0x22
    ensures next > j
    ensures Detok(b[j..], false) == Prepend(shown, Detok(Drop(b, next), false))
  {
    var k := j + 1;
    while k < |b| && b[k] != 0x22
      invariant j < k <= |b| && 0x22 !in b[j + 1..k]
    {
      k := k + 1;
    }
    shown, next := "\"" + Chars(b[j + 1..k]) + "\"", k + 1;
    DetokLiteral(b, j, k, shown);
  }

  // One step of the loop below: all stands for the whole body's text.
  lemma Appended(all: Option<string>, out: string, here: Option<string>, shown: string, rest: Option<string>)
    requires all == Prepend(out, here) && here == Prepend(shown, rest)
    ensures all == Prepend(out + shown, rest)
  {
    PrependTwice(out, shown, rest);
  }

  method DetokeniseBody(b: seq<byte>) returns (r: Option<string>)
    ensures r == Detok(b, false)
  {
    var out := "";
    var j := 0;
    PrependNothing(Detok(b, false));
    assert Drop(b, 0) == b;
    while j < |b|
      invariant Detok(b, false) == Prepend(out, Detok(Drop(b, j), false))
    {
      ghost var here := Detok(b[j..], false);
      var shown, next;
      if b[j] == 0x22 {
        shown, next := Literal(b, j);
      } else {
        var other;
        other, next := Simple(b, j);
        if other.None? {
          return None;
        }
        shown := other.value;
      }
      Appended(Detok(b, false), out, here, shown, Detok(Drop(b, next), false));
      out := out + shown;
      j := next;
    }
    assert out + "" == out;
    r := Some(out);
  }

  lemma AheadTwice(a: seq<Listed>, b: seq<Listed>, y: Yielded)
    ensures Ahead(a, Ahead(b, y)) == Ahead(a + b, y)
  {
    assert a + (b + y.lines) == (a + b) + y.lines;
  }

  // One more raw line that decodes.
  lemma OneMore(all: Yielded, lines: seq<Listed>, data: seq<byte>, i: nat)
    requires Plausible(data, i) && all == Ahead(lines, Decoded(RawFrom(data, i)))
    ensures var raw := RawAt(data, i);
            match Detok(raw.body, false) {
              case None => all == Yielded(lines, false)
              case Some(text) =>
                all == Ahead(lines + [Listed(raw.number, raw.at, raw.body, text)],
                             Decoded(RawFrom(data, i + 4 + |raw.body|)))
            }
  {
    var raw, more := RawAt(data, i), RawFrom(data, i + 4 + |RawAt(data, i).body|);
    assert RawFrom(data, i)[0] == raw && RawFrom(data, i)[1..] == more;
    match Detok(raw.body, false)
    case None => assert lines + [] == lines;
    case Some(text) => AheadTwice(lines, [Listed(raw.number, raw.at, raw.body, text)], Decoded(more));
  }

  // The lines that are yielded, and whether the end is reached without an error.
  method Detokenise(data: seq<byte>) returns (lines: seq<Listed>, whole: bool)
    ensures Yielded(lines, whole) == List(data)
  {
    lines, whole := [], false;
    if |data| < 8 || data[..8] != MAGIC {
      return;
    }
    var i := 128;
    ghost var all := Decoded(RawFrom(data, 128));
    assert [] + all.lines == all.lines;
    while i + 4 < |data|
      invariant all == Ahead(lines, Decoded(RawFrom(data, i)))
      decreases |data| - i
    {
      var number := Word16(data[i + 1], data[i]);
      var length := Word16(data[i + 2], data[i + 3]);
      if number == 0 || number > 9999 || length == 0 || length > 2000 || i + 4 + length > |data| {
        break;
      }
      OneMore(all, lines, data, i);
      var body := data[i + 4..i + 4 + length];
      var text := DetokeniseBody(body);
      if text.None? {
        return;
      }
      lines := lines + [Listed(number, i + 4, body, text.value)];
      i := i + 4 + length;
    }
    assert lines + [] == lines;
    whole := true;
  }
}
