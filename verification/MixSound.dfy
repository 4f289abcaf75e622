/**
 From the sources to the sample: what the output emits for a time in which nothing
 changes, after any history.
 */
module MixSound {
  import opened Common
  import opened Ay
  import T = Turbo
  import I2s = I2sClass
  import opened MixLevels
  import opened MixWeights
  import opened MixHistory

  // How far each source takes its side from rest.
  function BeeperPart(b: Beeper, exclusive: bool, mute: byte): int {
    if !BeeperHeard(exclusive, mute) then 0
    else (if b.ear then 512 else 0) + (if b.mic then 128 else 0) + (if b.tapeEar then 512 else 0)
  }

  function DacPart(x: byte, y: byte, mute: byte): int {
    if Bit(mute, 8) then 0 else 4 * (x as int - 128) + 4 * (y as int - 128)
  }

  lemma LevelOfParts(d: Desk, b: Beeper, dac: Dac)
    ensures var l := LevelOf(d, b, dac);
            && l.left == 1536 + BeeperPart(b, d.exclusive, d.mute) + d.ts.pcm.left + DacPart(dac.a, dac.b, d.mute)
                         + (I2s.Gated(d.reg, true) - 512)
            && l.right == 1536 + BeeperPart(b, d.exclusive, d.mute) + d.ts.pcm.right + DacPart(dac.c, dac.d, d.mute)
                          + (I2s.Gated(d.reg, false) - 512)
  {
  }

  // One slice from an empty accumulator.
  lemma OneSliceEmits(d: Desk, b: Beeper, dac: Dac, cycles: nat)
    requires d.slices == [] && cycles > 0
    ensures var l := LevelOf(d, b, dac);
            var e := Serve(Serve(d, Hold(b, dac, cycles)), EmitNow);
            && e.ops == d.ops + [Emit(Sample(Cut16(4 * (l.left - 1536)), Cut16(4 * (l.right - 1536))))]
            && e.slices == [] && e.ts == d.ts && e.reg == d.reg
  {
    var l := LevelOf(d, b, dac);
    OneSlice(l, cycles);
    assert [] + [Slice(l, cycles)] == [Slice(l, cycles)];
    HeldLevelEmits([Slice(l, cycles)], l);
  }

  lemma {:induction false} AfterOne(events: seq<Event>, x: Event)
    ensures After(events + [x]) == Serve(After(events), x)
  {
    assert (events + [x])[..|events|] == events;
  }

  lemma {:induction false} AfterTwo(events: seq<Event>, x: Event, y: Event)
    ensures After(events + [x, y]) == Serve(Serve(After(events), x), y)
  {
    AfterOne(events, x);
    AfterOne(events + [x], y);
    assert events + [x, y] == events + [x] + [y];
  }

  /** After any history with nothing integrated, a time in which nothing changes emits,
      on each side, four times the sum of that side's sources, cut to 16 bits: the
      beeper, the chips' latched sum, the two DAC channels of the side from their
      midpoint, and the gated I2S side from its own. */
  lemma HeldTimeEmits(events: seq<Event>, b: Beeper, dac: Dac, cycles: nat)
    requires After(events).slices == [] && cycles > 0
    ensures var d := After(events);
            var left := BeeperPart(b, d.exclusive, d.mute) + d.ts.pcm.left + DacPart(dac.a, dac.b, d.mute)
                        + I2s.Gated(d.reg, true) - 512;
            var right := BeeperPart(b, d.exclusive, d.mute) + d.ts.pcm.right + DacPart(dac.c, dac.d, d.mute)
                         + I2s.Gated(d.reg, false) - 512;
            After(events + [Hold(b, dac, cycles), EmitNow]).ops
            == d.ops + [Emit(Sample(Cut16(4 * left), Cut16(4 * right)))]
  {
    AfterTwo(events, Hold(b, dac, cycles), EmitNow);
    OneSliceEmits(After(events), b, dac, cycles);
    LevelOfParts(After(events), b, dac);
  }

  lemma PiStarts(l: nat, r: nat)
    requires l < 1024 && r < 1024
    ensures var d := After([OnI2s(I2s.Control(0xC0)), OnI2s(I2s.Latch(l, r))]);
            && d.slices == [] && d.ops == [] && d.ts == T.NEW && !d.exclusive && d.mute == 0
            && I2s.Gated(d.reg, true) == l && I2s.Gated(d.reg, false) == r
  {
    AfterTwo([], OnI2s(I2s.Control(0xC0)), OnI2s(I2s.Latch(l, r)));
    assert [] + [OnI2s(I2s.Control(0xC0)), OnI2s(I2s.Latch(l, r))] == [OnI2s(I2s.Control(0xC0)), OnI2s(I2s.Latch(l, r))];
    I2s.GatedSides(After([OnI2s(I2s.Control(0xC0)), OnI2s(I2s.Latch(l, r))]).reg);
  }

  lemma {:induction false} OneIsQueued(x: Sample)
    ensures QueueAfter([Emit(x)]) == [x]
  {
    var ops: seq<QueueOp> := [Emit(x)];
    assert ops[..0] == [] && [] + [x] == [x];
  }

  /** From power-on, with both I2S channels let through, a sample pair of the Pi is
      heard on its own sides, four times its distance from 512. */
  lemma PiSampleIsHeard(l: nat, r: nat, cycles: nat)
    requires l < 1024 && r < 1024 && cycles > 0
    ensures QueueAfter(After([OnI2s(I2s.Control(0xC0)), OnI2s(I2s.Latch(l, r))]
                             + [Hold(NO_BEEPER, MID_DAC, cycles), EmitNow]).ops)
         == [Sample(4 * (l - 512), 4 * (r - 512))]
  {
    var start := [OnI2s(I2s.Control(0xC0)), OnI2s(I2s.Latch(l, r))];
    PiStarts(l, r);
    HeldTimeEmits(start, NO_BEEPER, MID_DAC, cycles);
    OneIsQueued(Sample(4 * (l - 512), 4 * (r - 512)));
    assert [] + [Emit(Sample(4 * (l - 512), 4 * (r - 512)))] == [Emit(Sample(4 * (l - 512), 4 * (r - 512)))];
  }
}
