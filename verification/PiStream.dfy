/**
 The stream parser of src/audio/pi_audio.cpp: a 44-byte WAV header, then
 little-endian 16-bit pairs, with a header also recognised in-stream.  Reads
 arrive in arbitrary pieces; `Feed` is what one read does.
 */
module PiStream {
  import opened PiRing
  import opened Common

  const HEADER: nat := 44
  const RIFF: seq<byte> := [0x52, 0x49, 0x46, 0x46]
  const WAVE: seq<byte> := [0x57, 0x41, 0x56, 0x45]

  datatype Pos = Pos(headerLeft: nat, carry: seq<byte>)

  const Fresh: Pos := Pos(HEADER, [])

  // What a read produced and where the stream then stands.
  datatype Fed = Fed(frames: seq<Frame>, pos: Pos)

  // int16 from two little-endian bytes.
  function Sample(lo: byte, hi: byte): int16 {
    var u := lo + 256 * hi;
    if u < 32768 then u else u - 65536
  }

  function FrameAt(b: seq<byte>): Frame
    requires |b| >= 4
  {
    Frame(Sample(b[0], b[1]), Sample(b[2], b[3]))
  }

  predicate StartsRiff(b: seq<byte>) { |b| >= 4 && b[..4] == RIFF }

  predicate IsHeader(b: seq<byte>) { |b| >= 12 && b[..4] == RIFF && b[8..12] == WAVE }

  // The parser waits: less than a frame, or what may yet become a header.
  predicate Waits(b: seq<byte>) { |b| < 4 || (StartsRiff(b) && |b| < 12) }

  // Everything that can be decided about the bytes at hand.
  function Drain(b: seq<byte>): Fed
    decreases |b|
  {
    if Waits(b) then Fed([], Pos(0, b))
    else if IsHeader(b) then
      if |b| >= HEADER then Drain(b[HEADER..]) else Fed([], Pos(HEADER - |b|, []))
    else
      var rest := Drain(b[4..]);
      Fed([FrameAt(b)] + rest.frames, rest.pos)
  }

  function Min(a: nat, b: nat): nat { if a < b then a else b }

  function Feed(st: Pos, data: seq<byte>): Fed {
    var skip := Min(st.headerLeft, |data|);
    var left := st.headerLeft - skip;
    var buf := st.carry + data[skip..];
    if left > 0 then Fed([], Pos(left, buf)) else Drain(buf)
  }

  // Several reads one after the other.
  function FeedAll(st: Pos, parts: seq<seq<byte>>): Fed
    decreases |parts|
  {
    if parts == [] then Fed([], st)
    else
      var first := Feed(st, parts[0]);
      var rest := FeedAll(first.pos, parts[1..]);
      Fed(first.frames + rest.frames, rest.pos)
  }

  // Between reads: no carry while a header is being skipped, and what is
  // carried is undecided, hence shorter than 12 bytes.
  predicate Resting(st: Pos) {
    if st.headerLeft > 0 then st.headerLeft <= HEADER && st.carry == []
    else Waits(st.carry) && |st.carry| < 12
  }

  lemma {:induction false} DrainRests(b: seq<byte>)
    ensures Resting(Drain(b).pos)
    decreases |b|
  {
    if Waits(b) {
    } else if IsHeader(b) {
      if |b| >= HEADER { DrainRests(b[HEADER..]); }
    } else {
      DrainRests(b[4..]);
    }
  }

  lemma FeedRests(st: Pos, data: seq<byte>)
    requires Resting(st)
    ensures Resting(Feed(st, data).pos)
  {
    if st.headerLeft > |data| {
      assert data[|data|..] == [];
    } else {
      DrainRests(st.carry + data[Min(st.headerLeft, |data|)..]);
    }
  }

  // Skipping header bytes, with nothing carried.
  lemma FeedHeader(k: nat, y: seq<byte>)
    ensures Feed(Pos(k, []), y) ==
            if |y| < k then Fed([], Pos(k - |y|, [])) else Drain(y[k..])
  {
    if |y| < k {
      assert y[|y|..] == [];
    } else {
      assert [] + y[k..] == y[k..];
    }
  }

  // A frame that is ready is pushed whatever follows it.
  lemma FrameThenMore(x: seq<byte>, y: seq<byte>)
    requires !Waits(x) && !IsHeader(x)
    ensures var rest := Drain(x[4..] + y);
            Drain(x + y) == Fed([FrameAt(x)] + rest.frames, rest.pos)
  {
    assert (x + y)[..4] == x[..4];
    assert |x| >= 12 ==> (x + y)[8..12] == x[8..12];
    assert (x + y)[4..] == x[4..] + y;
  }

  // So is a header skipped.
  lemma HeaderThenMore(x: seq<byte>, y: seq<byte>)
    requires IsHeader(x)
    ensures Drain(x + y) == if |x| >= HEADER then Drain(x[HEADER..] + y) else Feed(Pos(HEADER - |x|, []), y)
  {
    assert (x + y)[..4] == x[..4] && (x + y)[8..12] == x[8..12];
    if |x| >= HEADER {
      assert (x + y)[HEADER..] == x[HEADER..] + y;
    } else {
      FeedHeader(HEADER - |x|, y);
      if |x + y| >= HEADER { assert (x + y)[HEADER..] == y[HEADER - |x|..]; }
    }
  }

  // Bytes that arrive later never undo a decision.
  lemma {:induction false} DrainAppend(x: seq<byte>, y: seq<byte>)
    ensures var first := Drain(x);
            var rest := Feed(first.pos, y);
            Drain(x + y) == Fed(first.frames + rest.frames, rest.pos)
    decreases |x|
  {
    if Waits(x) {
      assert y[0..] == y;
    } else if IsHeader(x) {
      HeaderThenMore(x, y);
      if |x| >= HEADER { DrainAppend(x[HEADER..], y); }
    } else {
      FrameThenMore(x, y);
      DrainAppend(x[4..], y);
    }
  }

  lemma HeaderSplits(k: nat, x: seq<byte>, y: seq<byte>)
    requires k > |x|
    ensures Feed(Pos(k, []), x + y) == Feed(Pos(k - |x|, []), y) && Feed(Pos(k, []), x) == Fed([], Pos(k - |x|, []))
  {
    FeedHeader(k, x);
    FeedHeader(k, x + y);
    FeedHeader(k - |x|, y);
    if k <= |x| + |y| { assert (x + y)[k..] == y[k - |x|..]; }
  }

  // Two reads are as good as one.
  lemma {:induction false} FeedAppend(st: Pos, x: seq<byte>, y: seq<byte>)
    requires Resting(st)
    ensures var first := Feed(st, x);
            var rest := Feed(first.pos, y);
            Feed(st, x + y) == Fed(first.frames + rest.frames, rest.pos)
  {
    var k := st.headerLeft;
    if k > |x| {
      HeaderSplits(k, x, y);
    } else {
      assert st.carry + (x + y)[k..] == (st.carry + x[k..]) + y;
      DrainAppend(st.carry + x[k..], y);
    }
  }

  function Concat(parts: seq<seq<byte>>): seq<byte>
    decreases |parts|
  {
    if parts == [] then [] else parts[0] + Concat(parts[1..])
  }

  // Chunking does not matter: any way of cutting a byte stream into reads gives
  // the frames, the header bytes left and the carry of a single read of it all.
  lemma {:induction false} ChunkingIsInvisible(st: Pos, parts: seq<seq<byte>>)
    requires Resting(st)
    ensures FeedAll(st, parts) == Feed(st, Concat(parts))
    decreases |parts|
  {
    if parts == [] {
      NothingToRead(st);
    } else {
      FeedRests(st, parts[0]);
      ChunkingIsInvisible(Feed(st, parts[0]).pos, parts[1..]);
      FeedAppend(st, parts[0], Concat(parts[1..]));
    }
  }

  lemma NothingToRead(st: Pos)
    requires Resting(st)
    ensures Feed(st, []) == Fed([], st)
  {
    assert st.carry + [] == st.carry;
  }

  lemma {:induction false} TwoCuttingsAgree(a: seq<seq<byte>>, b: seq<seq<byte>>)
    requires Concat(a) == Concat(b)
    ensures FeedAll(Fresh, a) == FeedAll(Fresh, b)
    ensures Resting(FeedAll(Fresh, a).pos)
  {
    ChunkingIsInvisible(Fresh, a);
    ChunkingIsInvisible(Fresh, b);
    FeedRests(Fresh, Concat(a));
  }

  // ------------------------------------------------- streams of frames -----

  // The complete frames in some bytes, headers or not.
  function Cut(b: seq<byte>): seq<Frame>
    decreases |b|
  {
    if |b| < 4 then [] else [FrameAt(b)] + Cut(b[4..])
  }

  // int16 as two little-endian bytes.
  function Pair(v: int16): seq<byte> {
    var u := if v < 0 then v + 65536 else v;
    [u % 256, u / 256]
  }

  function Bytes(frames: seq<Frame>): (b: seq<byte>)
    ensures |b| == 4 * |frames|
    decreases |frames|
  {
    if frames == [] then []
    else Pair(frames[0].left) + Pair(frames[0].right) + Bytes(frames[1..])
  }

  lemma {:induction false} CutBytes(frames: seq<Frame>)
    ensures Cut(Bytes(frames)) == frames
    decreases |frames|
  {
    if frames != [] {
      assert Bytes(frames)[4..] == Bytes(frames[1..]);
      CutBytes(frames[1..]);
    }
  }

  // No twelve bytes on a frame boundary below `end` read as a header.
  ghost predicate NoHeaderBelow(b: seq<byte>, end: nat) {
    forall k {:trigger b[4 * k..]} | 0 <= 4 * k < end && 4 * k <= |b| :: !IsHeader(b[4 * k..])
  }

  lemma NoHeaderShift(b: seq<byte>, end: nat)
    requires |b| >= 4 && !IsHeader(b) && end >= 4
    ensures NoHeaderBelow(b, end) <==> NoHeaderBelow(b[4..], end - 4)
  {
    if NoHeaderBelow(b, end) {
      forall k {:trigger b[4..][4 * k..]} | 0 <= 4 * k < end - 4 && 4 * k <= |b[4..]|
        ensures !IsHeader(b[4..][4 * k..])
      {
        assert b[4..][4 * k..] == b[4 * (k + 1)..];
      }
    }
    if NoHeaderBelow(b[4..], end - 4) {
      forall k {:trigger b[4 * k..]} | 0 <= 4 * k < end && 4 * k <= |b| ensures !IsHeader(b[4 * k..]) {
        if k == 0 {
          assert b[0..] == b;
        } else {
          assert b[4..][4 * (k - 1)..] == b[4 * k..];
        }
      }
    }
  }

  lemma {:induction false} CutLength(b: seq<byte>)
    ensures |Cut(b)| == |b| / 4
    decreases |b|
  {
    if |b| >= 4 { CutLength(b[4..]); }
  }

  lemma {:induction false} DrainCount(b: seq<byte>)
    ensures |Drain(b).frames| + |Cut(Drain(b).pos.carry)| <= |b| / 4
    decreases |b|
  {
    CutLength(b);
    if Waits(b) {
    } else if IsHeader(b) {
      if |b| >= HEADER { DrainCount(b[HEADER..]); }
    } else {
      DrainCount(b[4..]);
    }
  }

  // Pushed frames, then the whole frames still carried.
  function Delivered(r: Fed): seq<Frame> { r.frames + Cut(r.pos.carry) }

  predicate Faithful(r: Fed, frames: seq<Frame>) { Delivered(r) == frames && r.pos.headerLeft == 0 }

  lemma FaithfulStep(b: seq<byte>)
    requires !Waits(b) && !IsHeader(b)
    ensures Faithful(Drain(b), Cut(b)) <==> Faithful(Drain(b[4..]), Cut(b[4..]))
  {
    var rest := Drain(b[4..]);
    assert Delivered(Drain(b)) == [FrameAt(b)] + Delivered(rest);
    SameTail(FrameAt(b), Delivered(rest), Cut(b[4..]));
  }

  lemma SameTail(f: Frame, a: seq<Frame>, b: seq<Frame>)
    ensures [f] + a == [f] + b <==> a == b
  {
    assert ([f] + a)[1..] == a && ([f] + b)[1..] == b;
  }

  lemma HeaderIsNotFaithful(b: seq<byte>)
    requires IsHeader(b)
    ensures !Faithful(Drain(b), Cut(b)) && !NoHeaderBelow(b, |b|)
  {
    assert b[4 * 0..] == b;
    CutLength(b);
    if |b| >= HEADER { DrainCount(b[HEADER..]); }
  }

  // Frames are neither lost nor invented, and no header is being skipped at the
  // end, exactly when nothing on a frame boundary spells a header.
  lemma {:induction false} DrainExact(b: seq<byte>)
    ensures Faithful(Drain(b), Cut(b)) <==> NoHeaderBelow(b, |b|)
    decreases |b|
  {
    if Waits(b) {
      assert [] + Cut(b) == Cut(b);
    } else if IsHeader(b) {
      HeaderIsNotFaithful(b);
    } else {
      FaithfulStep(b);
      DrainExact(b[4..]);
      NoHeaderShift(b, |b|);
    }
  }

  // One writer: the frames come back exactly when its data spells no header.
  lemma {:induction false} OneWriterExact(header: seq<byte>, frames: seq<Frame>)
    requires |header| == HEADER
    ensures Faithful(Feed(Fresh, header + Bytes(frames)), frames)
            <==> NoHeaderBelow(Bytes(frames), 4 * |frames|)
  {
    FeedHeader(HEADER, header + Bytes(frames));
    assert (header + Bytes(frames))[HEADER..] == Bytes(frames);
    CutBytes(frames);
    DrainExact(Bytes(frames));
  }

  // What one writer sends.
  datatype Wav = Wav(header: seq<byte>, frames: seq<Frame>)

  function Encode(w: Wav): seq<byte> { w.header + Bytes(w.frames) }

  function EncodeAll(ws: seq<Wav>): seq<byte>
    decreases |ws|
  {
    if ws == [] then [] else Encode(ws[0]) + EncodeAll(ws[1..])
  }

  function FramesOf(ws: seq<Wav>): seq<Frame>
    decreases |ws|
  {
    if ws == [] then [] else ws[0].frames + FramesOf(ws[1..])
  }

  // Every stream starts with a header, and neither its data nor its data run
  // together with the next header spells another one on a frame boundary.
  ghost predicate Unmistakable(ws: seq<Wav>)
    decreases |ws|
  {
    ws == [] ||
    (var w := ws[0];
     var next := if |ws| > 1 then ws[1].header else [];
     && |w.header| == HEADER && IsHeader(w.header)
     && NoHeaderBelow(Bytes(w.frames) + next, 4 * |w.frames|)
     && Unmistakable(ws[1..]))
  }

  // The first frame of such data is pushed, and what follows is such data.
  lemma FirstOfData(frames: seq<Frame>, header: seq<byte>)
    requires frames != [] && |header| == HEADER && NoHeaderBelow(Bytes(frames) + header, 4 * |frames|)
    ensures var b := Bytes(frames) + header;
            && !Waits(b) && !IsHeader(b) && FrameAt(b) == frames[0]
            && b[4..] == Bytes(frames[1..]) + header
            && NoHeaderBelow(Bytes(frames[1..]) + header, 4 * |frames[1..]|)
  {
    var b := Bytes(frames) + header;
    assert b[4 * 0..] == b;
    FrameInFront(frames, header);
    NoHeaderShift(b, 4 * |frames|);
  }

  lemma PairReads(v: int16)
    ensures |Pair(v)| == 2 && Sample(Pair(v)[0], Pair(v)[1]) == v
  {
  }

  lemma FrameInFront(frames: seq<Frame>, header: seq<byte>)
    requires frames != []
    ensures var b := Bytes(frames) + header;
            |b| >= 4 + |header| && FrameAt(b) == frames[0] && b[4..] == Bytes(frames[1..]) + header
  {
    var l, r, more := Pair(frames[0].left), Pair(frames[0].right), Bytes(frames[1..]) + header;
    PairReads(frames[0].left);
    PairReads(frames[0].right);
    assert Bytes(frames) + header == l + r + more;
    FourBytes(l, r, more);
  }

  lemma FourBytes(l: seq<byte>, r: seq<byte>, more: seq<byte>)
    requires |l| == |r| == 2
    ensures var b := l + r + more;
            b[0] == l[0] && b[1] == l[1] && b[2] == r[0] && b[3] == r[1] && b[4..] == more
  {
  }

  lemma FrontJoins(frames: seq<Frame>, more: seq<Frame>)
    requires frames != []
    ensures [frames[0]] + (frames[1..] + more) == frames + more
  {
  }

  // Data followed by a whole header: all its frames are pushed and the header
  // is skipped.
  lemma {:induction false} DataThenHeader(frames: seq<Frame>, header: seq<byte>, tail: seq<byte>)
    requires |header| == HEADER && IsHeader(header)
    requires NoHeaderBelow(Bytes(frames) + header, 4 * |frames|)
    ensures var rest := Drain(tail);
            Drain(Bytes(frames) + header + tail) == Fed(frames + rest.frames, rest.pos)
    decreases |frames|
  {
    var b := Bytes(frames) + header;
    if frames == [] {
      assert b == header;
      HeaderThenMore(header, tail);
      assert header[HEADER..] + tail == tail;
      assert frames + Drain(tail).frames == Drain(tail).frames;
    } else {
      FirstOfData(frames, header);
      FrameThenMore(b, tail);
      DataThenHeader(frames[1..], header, tail);
      FrontJoins(frames, Drain(tail).frames);
    }
  }

  lemma {:induction false} DrainStreams(ws: seq<Wav>)
    requires ws != [] && Unmistakable(ws)
    ensures Faithful(Drain(Bytes(ws[0].frames) + EncodeAll(ws[1..])), FramesOf(ws))
    decreases |ws|
  {
    var w, more := ws[0], ws[1..];
    if more == [] {
      assert Bytes(w.frames) + EncodeAll(more) == Bytes(w.frames);
      assert Bytes(w.frames) + [] == Bytes(w.frames);
      CutBytes(w.frames);
      DrainExact(Bytes(w.frames));
      assert FramesOf(ws) == w.frames;
    } else {
      var tail := Bytes(more[0].frames) + EncodeAll(more[1..]);
      assert Bytes(w.frames) + EncodeAll(more) == Bytes(w.frames) + more[0].header + tail;
      DataThenHeader(w.frames, more[0].header, tail);
      DrainStreams(more);
      assert Delivered(Fed(w.frames + Drain(tail).frames, Drain(tail).pos)) == w.frames + Delivered(Drain(tail));
    }
  }

  // Writers that follow one another with no writer-gone reset, cut into reads
  // any way at all, parse to the concatenation of their frames: those pushed,
  // then the whole frames still waiting in the carry.
  lemma {:induction false} WritersInARow(ws: seq<Wav>, parts: seq<seq<byte>>)
    requires ws != [] && Unmistakable(ws) && Concat(parts) == EncodeAll(ws)
    ensures Faithful(FeedAll(Fresh, parts), FramesOf(ws))
  {
    ChunkingIsInvisible(Fresh, parts);
    FirstHeaderGoes(ws);
    DrainStreams(ws);
  }

  lemma FirstHeaderGoes(ws: seq<Wav>)
    requires ws != [] && |ws[0].header| == HEADER
    ensures Feed(Fresh, EncodeAll(ws)) == Drain(Bytes(ws[0].frames) + EncodeAll(ws[1..]))
  {
    var header, body := ws[0].header, Bytes(ws[0].frames) + EncodeAll(ws[1..]);
    assert EncodeAll(ws) == header + body;
    FeedHeader(HEADER, header + body);
    assert (header + body)[HEADER..] == body;
  }

  // After the last writer leaves, a new stream starts clean whatever was carried.
  function WriterGone(st: Pos): Pos { Fresh }
}
