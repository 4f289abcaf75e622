/**
 The PiAudio object itself: its ring buffer and counters updated in place, and
 the stream parser that feeds it.  Each method is one whole call of PiCalls.
 */
module PiAudioClass {
  import opened Common
  import opened PiRing
  import opened PiCalls
  import opened PiStream

  // The Pi's 10-bit offset-binary form of a sample: sign bit flipped, top bits kept.
  function ToI2s(sample: int16): (r: nat)
    ensures r < 1024
    ensures 64 * r <= sample + 32768 < 64 * (r + 1)
  {
    (sample + 32768) / 64
  }

  // The conversion keeps order and maps exactly one 64-wide band to silence.
  lemma ToI2sFaithful(a: int16, b: int16)
    ensures a <= b ==> ToI2s(a) <= ToI2s(b)
    ensures ToI2s(a) == 0x200 <==> 0 <= a < 64
  {
  }

  class Stream {
    var headerLeft: nat
    var carry: seq<byte>

    constructor ()
      ensures At() == Fresh
    {
      headerLeft := HEADER;
      carry := [];
    }

    ghost function At(): Pos
      reads this
    {
      Pos(headerLeft, carry)
    }
  }

  class PiAudio {
    const ring: array<int16>
    var head: nat
    var tail: nat
    var overflowed: bool
    var playing: bool
    var tapeMode: bool
    var sinceAdjust: nat
    var received: nat
    var dropped: nat
    var underruns: nat
    var skipped: nat
    var repeated: nat
    ghost var hist: History

    ghost function Snapshot(): State
      reads this, ring
    {
      State(Memory(head, tail, overflowed, ring[..]), Own(playing, tapeMode, sinceAdjust),
            Stats(received, dropped, underruns, skipped, repeated), PIdle, CIdle, hist)
    }

    // The ring has its full size.  That calls keep the ring's invariant is a
    // fact about the states they compute (PiCalls, PiRing), not repeated here.
    ghost predicate Valid() {
      ring.Length == 2 * CAPACITY
    }

    constructor ()
      ensures Valid() && fresh(ring)
      ensures Snapshot() == Initial
    {
      ring := new int16[2 * CAPACITY](_ => 0);
      head, tail, overflowed := 0, 0, false;
      playing, tapeMode, sinceAdjust := false, false, 0;
      received, dropped, underruns, skipped, repeated := 0, 0, 0, 0, 0;
      hist := History([], 0, [], 0, 0);
      new;
      assert ring[..] == Initial.mem.ring;
    }

    method Push(left: int16, right: int16)
      requires Valid()
      modifies this, ring
      ensures Valid()
      ensures Snapshot() == PiCalls.Push(old(Snapshot()), Frame(left, right))
    {
      ghost var s, f := Snapshot(), Frame(left, right);
      if Distance(head, tail) >= CAPACITY {
        PushRefuses(s, f);
        dropped := dropped + 1;
        overflowed := true;
        hist := hist.(attempted := hist.attempted + 1, refused := hist.refused + 1);
        return;
      }
      PushStores(s, f);
      var i := head % CAPACITY;
      ring[2 * i] := left;
      ring[2 * i + 1] := right;
      assert ring[..] == s.mem.ring[2 * i := left][2 * i + 1 := right];
      head := (head + 1) % WORD;
      received := received + 1;
      hist := hist.(attempted := hist.attempted + 1, log := hist.log + [f]);
    }

    // One frame for one output sample; false when there is none to play.
    method Pop() returns (ok: bool, left: int16, right: int16)
      requires Valid()
      modifies this
      ensures Valid()
      ensures Snapshot() == PiCalls.Pop(old(Snapshot()))
      ensures |hist.outs| == |old(hist.outs)| + 1
      ensures var o := hist.outs[|old(hist.outs)|];
              if ok then o.Played? && o.frame == Frame(left, right) else o.Silent?
    {
      ghost var s := Snapshot();
      ok, left, right := false, 0, 0;
      PopCases(s);
      var available := Distance(head, tail);
      if overflowed {
        overflowed := false;
        dropped := dropped + available;
        tail := (tail + available) % WORD;
        playing := false;
        hist := hist.(taken := hist.taken + available, outs := hist.outs + [Silent]);
      } else if !playing && available < (if tapeMode then TAPE_TARGET else PREBUFFER) {
        hist := hist.(outs := hist.outs + [Silent]);
      } else {
        ok, left, right := Continue(available);
      }
    }

    // The rest of pop once it may play: it starts if it was stopped, and stops if
    // the ring is empty.
    method Continue(available: nat) returns (ok: bool, left: int16, right: int16)
      requires Valid() && (playing || available > 0)
      modifies this
      ensures Valid() && |hist.outs| == |old(hist.outs)| + 1
      ensures var s := old(Snapshot());
              Snapshot() ==
              if available == 0 then AfterUnderrun(s)
              else AfterPlay(s.(own := s.own.(playing := true, sinceAdjust := SinceAfter(s.own, available))),
                             PlanFor(s.own, available))
      ensures var o := hist.outs[|old(hist.outs)|];
              if ok then o.Played? && o.frame == Frame(left, right) else o.Silent?
    {
      ghost var s := Snapshot();
      ok, left, right := available > 0, 0, 0;
      if !playing {
        playing := true;
        sinceAdjust := 0;
      }
      if available == 0 {
        playing := false;
        underruns := underruns + 1;
        hist := hist.(outs := hist.outs + [Silent]);
      } else {
        left, right := Play(available, !s.own.playing);
      }
    }

    // Once a frame will be played: trim, steer, read, advance.
    method Play(available: nat, ghost restart: bool) returns (left: int16, right: int16)
      requires ring.Length == 2 * CAPACITY && playing && available > 0
      modifies this
      ensures var s := old(Snapshot());
              var plan := PlanFor(s.own, available).(restart := restart);
              Snapshot() == AfterPlay(s.(own := s.own.(sinceAdjust := SinceAfter(s.own, available))), plan)
              && Frame(left, right) == FrameOf(s.mem, plan)
    {
      ghost var s := Snapshot();
      ghost var plan := PlanFor(s.own, available).(restart := restart);
      var skip := 0;
      if available > (if tapeMode then TAPE_MAX_LATENCY else MAX_LATENCY) {
        skip := available - (if tapeMode then TAPE_TARGET else TARGET);
        dropped := dropped + skip;
      }
      var step := Steer(available - skip);
      assert plan == Plan(available, skip, step, restart);
      left, right := Take(skip, step, plan);
    }

    // The frame after the trimmed ones is read, and the tail moves past it.
    method Take(skip: nat, step: nat, ghost plan: Plan) returns (left: int16, right: int16)
      requires ring.Length == 2 * CAPACITY && plan.trim == skip && plan.step == step
      modifies this`tail, this`hist
      ensures var s := old(Snapshot());
              && Frame(left, right) == FrameOf(s.mem, plan)
              && Snapshot() == s.(mem := Advance(s.mem, skip + step),
                                  hist := s.hist.(taken := s.hist.taken + skip + step,
                                                  outs := s.hist.outs + [Played(s.hist.taken + skip, FrameOf(s.mem, plan),
                                                                                s.own.tapeMode, plan)]))
    {
      var i := (tail + skip) % CAPACITY;
      left, right := ring[2 * i], ring[2 * i + 1];
      tail := (tail + skip + step) % WORD;
      hist := hist.(taken := hist.taken + skip + step,
                    outs := hist.outs + [Played(hist.taken + skip, Frame(left, right), tapeMode, plan)]);
    }

    // How far to move past the played frame: in tape mode the level is kept near
    // its target, one frame at a time.
    method Steer(level: nat) returns (step: nat)
      modifies this`sinceAdjust, this`skipped, this`repeated
      ensures var bumped := if tapeMode && old(sinceAdjust) < TAPE_ADJUST_EVERY then old(sinceAdjust) + 1
                            else old(sinceAdjust);
              && step == (if !tapeMode || bumped < TAPE_ADJUST_EVERY then 1
                          else if level > TAPE_TARGET + TAPE_BAND then 2
                          else if level < TAPE_TARGET - TAPE_BAND then 0
                          else 1)
              && sinceAdjust == (if step == 1 then bumped else 0)
      ensures skipped == old(skipped) + (if step == 2 then 1 else 0)
      ensures repeated == old(repeated) + (if step == 0 then 1 else 0)
    {
      step := 1;
      if tapeMode {
        if sinceAdjust < TAPE_ADJUST_EVERY { sinceAdjust := sinceAdjust + 1; }
        if sinceAdjust >= TAPE_ADJUST_EVERY {
          if level > TAPE_TARGET + TAPE_BAND {
            step := 2;
            skipped := skipped + 1;
            sinceAdjust := 0;
          } else if level < TAPE_TARGET - TAPE_BAND {
            step := 0;
            repeated := repeated + 1;
            sinceAdjust := 0;
          }
        }
      }
    }

    method SetTapeMode(on: bool)
      requires Valid()
      modifies this
      ensures Valid()
      ensures Snapshot() == PiCalls.SetTapeMode(old(Snapshot()), on)
    {
      ghost var s := Snapshot();
      if on == tapeMode { return; }
      tapeMode := on;
      sinceAdjust := 0;
      if on {
        playing := false;
        return;
      }
      LeavingTapeMode(s);
      var available := Distance(head, tail);
      if available > TARGET {
        var skip := available - TARGET;
        tail := (tail + skip) % WORD;
        dropped := dropped + skip;
        hist := hist.(taken := hist.taken + skip);
      }
    }

    // The writer is gone: whatever comes next begins with a header again.
    method StreamEnds(st: Stream)
      modifies st
      ensures st.At() == WriterGone(old(st.At()))
    {
      st.headerLeft := HEADER;
      st.carry := [];
    }

    // The bytes at pos that start a header: where the parser goes on, or whether it
    // has to wait for more.
    method SkipHeader(buf: seq<byte>, pos: nat, st: Stream) returns (next: nat, stop: bool)
      requires pos + 4 <= |buf| && st.headerLeft == 0
      modifies st`headerLeft
      ensures pos <= next <= |buf|
      ensures stop ==> Waits(buf[pos..]) && next == pos && st.headerLeft == 0
      ensures !stop && next > pos ==> Remaining(st.headerLeft, buf[next..]) == Drain(buf[pos..])
      ensures !stop && next == pos ==> !Waits(buf[pos..]) && !IsHeader(buf[pos..]) && st.headerLeft == 0
    {
      next, stop := pos, false;
      var b := buf[pos..];
      if b[..4] == RIFF {
        if |b| < 12 { return pos, true; }
        if b[8..12] == WAVE {
          var skip := if HEADER < |b| then HEADER else |b|;
          assert b[skip..] == buf[pos + skip..];
          next := pos + skip;
          st.headerLeft := HEADER - skip;
        }
      }
    }

    // One read: bytes become frames, pushed in order.
    method Consume(data: seq<byte>, st: Stream)
      requires Valid()
      modifies this, ring, st
      ensures Valid()
      ensures st.At() == Feed(old(st.At()), data).pos
      ensures Snapshot() == PushAll(old(Snapshot()), Feed(old(st.At()), data).frames)
    {
      ghost var goal := Feed(st.At(), data);
      var off := 0;
      if st.headerLeft > 0 {
        var skip := if st.headerLeft < |data| then st.headerLeft else |data|;
        st.headerLeft := st.headerLeft - skip;
        off := skip;
      }
      st.carry := st.carry + data[off..];
      var buf := st.carry;
      var pos := PushFrames(buf, st);
      st.carry := buf[pos..];
    }

    // The loop of Consume: frames are pushed from buf as long as they are ready.
    method PushFrames(buf: seq<byte>, st: Stream) returns (pos: nat)
      requires Valid()
      modifies this, ring, st`headerLeft
      ensures Valid() && pos <= |buf|
      ensures var goal := Remaining(old(st.headerLeft), buf);
              && Pos(st.headerLeft, buf[pos..]) == goal.pos
              && Snapshot() == PushAll(old(Snapshot()), goal.frames)
    {
      ghost var goal, s0 := Remaining(st.headerLeft, buf), Snapshot();
      pos := 0;
      ghost var done: seq<Frame> := [];
      assert buf[0..] == buf;
      while st.headerLeft == 0 && |buf| - pos >= 4
        invariant pos <= |buf| && Valid()
        invariant Snapshot() == PushAll(s0, done)
        invariant goal == Then(done, Remaining(st.headerLeft, buf[pos..]))
        decreases |buf| - pos
      {
        ghost var here := buf[pos..];
        var next, stop := SkipHeader(buf, pos, st);
        if stop { break; }
        if next == pos {
          Push(Sample(buf[pos], buf[pos + 1]), Sample(buf[pos + 2], buf[pos + 3]));
          PushAllSnoc(s0, done, FrameAt(here));
          DoneSnoc(done, here);
          done := done + [FrameAt(here)];
          next := pos + 4;
          assert here[4..] == buf[next..];
        }
        pos := next;
      }
      assert goal == Fed(done, Pos(st.headerLeft, buf[pos..]));
    }
  }

  // What is still to come from the bytes not yet looked at.
  ghost function Remaining(headerLeft: nat, b: seq<byte>): Fed {
    if headerLeft > 0 then Fed([], Pos(headerLeft, b)) else Drain(b)
  }

  ghost function Then(done: seq<Frame>, rest: Fed): Fed { Fed(done + rest.frames, rest.pos) }

  lemma DoneSnoc(done: seq<Frame>, b: seq<byte>)
    requires !Waits(b) && !IsHeader(b)
    ensures Then(done, Drain(b)) == Then(done + [FrameAt(b)], Drain(b[4..]))
  {
  }

  lemma {:induction false} PushAllSnoc(s: State, frames: seq<Frame>, f: Frame)
    ensures PushAll(s, frames + [f]) == PiCalls.Push(PushAll(s, frames), f)
    decreases |frames|
  {
    if frames == [] {
      assert [f][1..] == [];
    } else {
      assert (frames + [f])[1..] == frames[1..] + [f];
      PushAllSnoc(PiCalls.Push(s, frames[0]), frames[1..], f);
    }
  }
}
