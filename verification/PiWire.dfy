/**
 The bytes on the wire: what a header and a frame look like to the parser.
 */
module PiWire {
  import opened Common
  import opened PiRing
  import opened PiStream

  // "RIFF", any four bytes, "WAVE".
  predicate SpellsHeader(b: seq<byte>) {
    && |b| >= 12
    && b[0] == 'R' as int && b[1] == 'I' as int && b[2] == 'F' as int && b[3] == 'F' as int
    && b[8] == 'W' as int && b[9] == 'A' as int && b[10] == 'V' as int && b[11] == 'E' as int
  }

  // The signed 16-bit value of two bytes, the low one first.
  predicate Reads(v: int16, lo: byte, hi: byte) { (v - lo - 256 * hi) % 65536 == 0 }

  lemma FourAre(b: seq<byte>, i: nat, w: seq<byte>)
    requires |w| == 4 && i + 4 <= |b|
    ensures b[i..i + 4] == w <==> b[i] == w[0] && b[i + 1] == w[1] && b[i + 2] == w[2] && b[i + 3] == w[3]
  {
  }

  lemma HeaderSpelling(b: seq<byte>)
    ensures IsHeader(b) <==> SpellsHeader(b)
  {
    if |b| >= 12 {
      FourAre(b, 0, RIFF);
      FourAre(b, 8, WAVE);
    }
  }

  /** A stream that starts: its first 44 bytes are dropped, whatever they are. */
  lemma FreshSkips44(header: seq<byte>, data: seq<byte>)
    requires |header| == 44
    ensures Feed(Fresh, header + data) == Feed(Pos(0, []), data)
  {
    FeedHeader(HEADER, header + data);
    assert (header + data)[HEADER..] == data;
    FeedHeader(0, data);
  }

  /** So does one after the writer is gone, whatever was left over. */
  lemma NextWriterSkips44(st: Pos, header: seq<byte>, data: seq<byte>)
    requires |header| == 44
    ensures Feed(WriterGone(st), header + data) == Feed(Pos(0, []), data)
  {
    FreshSkips44(header, data);
  }

  lemma AtABoundary(b: seq<byte>)
    ensures Feed(Pos(0, []), b) == Drain(b)
  {
    FeedHeader(0, b);
    assert b[0..] == b;
  }

  lemma OneFrame(b: seq<byte>)
    requires |b| >= 4
    ensures Reads(FrameAt(b).left, b[0], b[1]) && Reads(FrameAt(b).right, b[2], b[3])
  {
  }

  /** At a frame boundary, with at least twelve bytes at hand: a spelt header is
      dropped as 44 bytes, those still to come included; anything else gives one
      frame, left before right and low byte before high. */
  lemma {:induction false} NextOnTheWire(b: seq<byte>)
    requires |b| >= 12
    ensures var r := Feed(Pos(0, []), b);
            if SpellsHeader(b) then
              if |b| < 44 then r == Fed([], Pos(44 - |b|, [])) else r == Feed(Pos(0, []), b[44..])
            else
              var rest := Feed(Pos(0, []), b[4..]);
              && r.pos == rest.pos && |r.frames| == 1 + |rest.frames| && r.frames[1..] == rest.frames
              && Reads(r.frames[0].left, b[0], b[1]) && Reads(r.frames[0].right, b[2], b[3])
  {
    HeaderSpelling(b);
    AtABoundary(b);
    AtABoundary(b[4..]);
    if |b| >= 44 { AtABoundary(b[44..]); }
    OneFrame(b);
  }

  /** With fewer, nothing is decided about fewer than four, nor about more that
      start with "RIFF"; else one frame is read. */
  lemma {:induction false} ShortOfAHeader(b: seq<byte>)
    requires |b| < 12
    ensures var r := Feed(Pos(0, []), b);
            var riff := |b| >= 4 && b[0] == 'R' as int && b[1] == 'I' as int && b[2] == 'F' as int && b[3] == 'F' as int;
            if |b| < 4 || riff then r == Fed([], Pos(0, b))
            else
              var rest := Feed(Pos(0, []), b[4..]);
              && r.pos == rest.pos && |r.frames| == 1 + |rest.frames| && r.frames[1..] == rest.frames
              && Reads(r.frames[0].left, b[0], b[1]) && Reads(r.frames[0].right, b[2], b[3])
  {
    AtABoundary(b);
    if |b| >= 4 {
      FourAre(b, 0, RIFF);
      AtABoundary(b[4..]);
      OneFrame(b);
    }
  }
}
